/**
 What the run-length encoder of the GDB stub (kernel/gdb_serial.c) does to the framing of its
 packets. The GDB Remote Serial Protocol (Overview section) forbids '#' and '$' as count bytes;
 the encoder never looks, and cuts runs into pieces of 98 characters.
 */
module PacketFraming {
  import opened Bytes
  import opened GdbEncoder

  // How many bytes of a fragment the longest run stands for.
  function Limit(hexify: bool): (n: nat)
    ensures n == if hexify then 49 else 98
  {
    if hexify then 49 else 98
  }

  // How many bytes of a run of n are left for its last piece.
  function LastPiece(n: nat, hexify: bool): nat {
    n % Limit(hexify)
  }

  // Some maximal run of bytes that are sent as equal characters leaves a last piece of k bytes.
  predicate Leaves(data: seq<byte>, hexify: bool, k: nat)
    decreases |data|
  {
    data != [] &&
    (var n := RunLength(data);
    ((hexify ==> EqualNibbles(data[0])) && LastPiece(n, hexify) == k) || Leaves(data[n..], hexify, k))
  }

  // ---------- one unit of the encoder ----------

  function UnitSize(data: seq<byte>, hexify: bool): (k: nat)
    requires data != []
    ensures 1 <= k <= RunLength(data) && k <= |data|
  {
    if StartsRun(data, hexify) then Min(RunLength(data), Limit(hexify)) else 1
  }

  ghost function UnitTokens(data: seq<byte>, hexify: bool): (ts: seq<Token>)
    requires data != []
    ensures forall t | t in ts :: Countable(t)
  {
    var k := UnitSize(data, hexify);
    if StartsRun(data, hexify) then
      LongRun(data, hexify);
      if hexify then [Run(HexDigit(data[0] % 16), 2 * k)] else [Run(data[0], k)]
    else if hexify then [Plain(HexDigit(data[0] / 16)), Plain(HexDigit(data[0] % 16))]
    else [Plain(data[0])]
  }

  lemma LongRun(data: seq<byte>, hexify: bool)
    requires data != [] && StartsRun(data, hexify)
    ensures RunLength(data) >= if hexify then 2 else 4
  {
  }

  lemma UnitStep(data: seq<byte>, hexify: bool)
    requires data != []
    ensures var k := UnitSize(data, hexify);
      Tokens(Fragment(data, hexify)) == UnitTokens(data, hexify) + Tokens(Fragment(data[k..], hexify))
  {
    if !hexify {
      assert StartsRun(data, false) <==> RunLength(data) >= 4 by {
        LongRunStarts(data);
      }
    }
  }

  lemma LongRunStarts(data: seq<byte>)
    requires data != []
    ensures StartsRun(data, false) <==> RunLength(data) >= 4
  {
  }

  // ---------- which counts are sent ----------

  ghost predicate HasRun(ts: seq<Token>, n: nat) {
    exists t | t in ts :: t.Run? && t.n == n
  }

  lemma SkipInRun(data: seq<byte>, k: nat)
    requires data != [] && k < RunLength(data)
    ensures data[k..] != [] && data[k..][0] == data[0] && RunLength(data[k..]) == RunLength(data) - k
    ensures data[k..][RunLength(data) - k..] == data[RunLength(data)..]
  {
  }

  lemma LeavesByRun(data: seq<byte>, hexify: bool, k: nat)
    requires data != []
    ensures var n := RunLength(data);
      Leaves(data, hexify, k) <==>
      ((hexify ==> EqualNibbles(data[0])) && LastPiece(n, hexify) == k) || Leaves(data[n..], hexify, k)
  {
  }

  // A piece that is long enough to be sent as a run, and shorter than a full one.
  predicate Piece(hexify: bool, k: nat) {
    (if hexify then 2 else 4) <= k < Limit(hexify)
  }

  // The condition, one unit at a time.
  lemma LeavesStep(data: seq<byte>, hexify: bool, k: nat)
    requires data != [] && Piece(hexify, k)
    ensures var u := UnitSize(data, hexify);
      Leaves(data, hexify, k) <==> (StartsRun(data, hexify) && u == k) || Leaves(data[u..], hexify, k)
  {
    var n, u := RunLength(data), UnitSize(data, hexify);
    UnitIs(data, hexify);
    hide *;
    PieceIs(hexify, k, n);
    LeavesByRun(data, hexify, k);
    if u < n {
      RestOfRun(data, hexify, k, u);
      PieceIs(hexify, k, n - u);
    }
  }

  // Behind the first u bytes of a run the rest of the run decides.
  lemma RestOfRun(data: seq<byte>, hexify: bool, k: nat, u: nat)
    requires data != [] && u < RunLength(data)
    ensures var n := RunLength(data);
      Leaves(data[u..], hexify, k) <==>
      ((hexify ==> EqualNibbles(data[0])) && LastPiece(n - u, hexify) == k) || Leaves(data[n..], hexify, k)
  {
    hide *;
    SkipInRun(data, u);
    LeavesByRun(data[u..], hexify, k);
  }

  lemma UnitIs(data: seq<byte>, hexify: bool)
    requires data != []
    ensures StartsRun(data, hexify) <==>
      (hexify ==> EqualNibbles(data[0])) && RunLength(data) >= if hexify then 2 else 4
    ensures var n, l := RunLength(data), if hexify then 49 else 98;
      UnitSize(data, hexify) == if StartsRun(data, hexify) then (if n < l then n else l) else 1
    ensures UnitSize(data, hexify) <= RunLength(data)
  {
    StartsIff(data, hexify);
  }

  lemma PieceIs(hexify: bool, k: nat, n: nat)
    requires Piece(hexify, k)
    ensures var l := if hexify then 49 else 98;
      && (if hexify then 2 else 4) <= k < l
      && (n < l ==> LastPiece(n, hexify) == n) && (n >= l ==> LastPiece(n, hexify) == LastPiece(n - l, hexify))
      && LastPiece(l, hexify) == 0
  {
    if hexify {
      assert n >= 49 ==> (n - 49) % 49 == n % 49;
    } else {
      assert n >= 98 ==> (n - 98) % 98 == n % 98;
    }
  }

  lemma StartsIff(data: seq<byte>, hexify: bool)
    requires data != []
    ensures StartsRun(data, hexify) <==>
      (hexify ==> EqualNibbles(data[0])) && RunLength(data) >= if hexify then 2 else 4
  {
  }

  // A run of k bytes is sent exactly if some maximal run leaves a piece of k bytes.
  lemma {:induction false} RunIffLeaves(data: seq<byte>, hexify: bool, k: nat)
    requires Piece(hexify, k)
    ensures HasRun(Tokens(Fragment(data, hexify)), if hexify then 2 * k else k) <==> Leaves(data, hexify, k)
    decreases |data|
  {
    if data != [] {
      var u := UnitSize(data, hexify);
      UnitStep(data, hexify);
      LeavesStep(data, hexify, k);
      RunIffLeaves(data[u..], hexify, k);
      HasRunStep(data, hexify, k, Tokens(Fragment(data[u..], hexify)));
    }
  }

  lemma HasRunStep(data: seq<byte>, hexify: bool, k: nat, rest: seq<Token>)
    requires data != []
    ensures var n := if hexify then 2 * k else k;
      HasRun(UnitTokens(data, hexify) + rest, n) <==>
      (StartsRun(data, hexify) && UnitSize(data, hexify) == k) || HasRun(rest, n)
  {
    var n := if hexify then 2 * k else k;
    var ts := UnitTokens(data, hexify);
    hide UnitSize, StartsRun;
    assert forall t :: t in ts + rest <==> t in ts || t in rest;
    if StartsRun(data, hexify) {
      assert ts[0] in ts;
    }
  }

  // ---------- '#' and '$' in a body ----------

  // The piece whose count byte is c.
  predicate CountedWith(data: seq<byte>, hexify: bool, c: byte)
    requires c == HASH || c == DOLLAR
  {
    if c == HASH then !hexify && Leaves(data, false, 7)
    else Leaves(data, hexify, if hexify then 4 else 8)
  }

  // A run is counted with '#' exactly if the fragment is plain and some maximal run has length
  // 7 modulo 98; with '$' exactly if some maximal run has length 8 modulo 98, or, in a hexified
  // fragment, 4 modulo 49 and consists of bytes with equal digits.
  lemma CountIff(data: seq<byte>, hexify: bool, c: byte)
    requires c == HASH || c == DOLLAR
    ensures (exists t | t in Tokens(Fragment(data, hexify)) :: t.Run? && Emit(t)[2] == c) <==>
      CountedWith(data, hexify, c)
  {
    var ts, n := Tokens(Fragment(data, hexify)), c as nat - 28;
    assert forall t | t in ts && t.Run? :: Emit(t)[2] == c <==> t.n == n;
    if hexify {
      RunIffLeaves(data, true, 4);
      EvenRuns(data);
    } else {
      RunIffLeaves(data, false, n);
    }
  }

  lemma {:induction false} EvenRuns(data: seq<byte>)
    ensures forall t | t in HexTokens(data) && t.Run? :: t.n % 2 == 0
    decreases |data|
  {
    if data != [] {
      hide RunLength, StartsRun, HexTokens, UnitTokens;
      var u := UnitSize(data, true);
      UnitStep(data, true);
      EvenRuns(data[u..]);
      EvenUnit(data);
      assert HexTokens(data) == UnitTokens(data, true) + HexTokens(data[u..]);
    }
  }

  lemma EvenUnit(data: seq<byte>)
    requires data != []
    ensures forall t | t in UnitTokens(data, true) && t.Run? :: t.n % 2 == 0
  {
    hide RunLength, StartsRun, HexDigit, EqualNibbles;
  }

  lemma {:induction false} EmitHolds(ts: seq<Token>, c: byte)
    requires forall t | t in ts :: Countable(t)
    ensures c in EmitAll(ts) <==> exists t | t in ts :: c in Emit(t)
  {
    if ts != [] {
      EmitHolds(ts[1..], c);
      assert forall t :: t in ts <==> t == ts[0] || t in ts[1..];
    }
  }

  // The characters of a plain fragment's units are those of the fragment.
  lemma {:induction false} PlainChars(data: seq<byte>, c: byte)
    ensures c in data <==> exists t | t in PlainTokens(data) :: t.c == c
    decreases |data|
  {
    if data != [] {
      hide RunLength, StartsRun;
      var k := UnitSize(data, false);
      PlainChars(data[k..], c);
      FirstUnit(data, k, c);
      UnitStep(data, false);
      var ts, rest := UnitTokens(data, false), PlainTokens(data[k..]);
      assert |ts| == 1 && ts[0].c == data[0];
      hide UnitTokens, PlainTokens;
      assert PlainTokens(data) == ts + rest;
      OneToken(ts, rest, c);
    }
  }

  lemma OneToken(ts: seq<Token>, rest: seq<Token>, c: byte)
    requires |ts| == 1
    ensures (exists t | t in ts + rest :: t.c == c) <==> ts[0].c == c || exists t | t in rest :: t.c == c
  {
    assert forall t :: t in ts + rest <==> t == ts[0] || t in rest;
  }

  lemma FirstUnit(data: seq<byte>, k: nat, c: byte)
    requires data != [] && 1 <= k <= RunLength(data)
    ensures c in data <==> c == data[0] || c in data[k..]
  {
    assert forall i | 0 <= i < k :: data[i] == data[0];
    assert forall i | k <= i < |data| :: data[i] == data[k..][i - k];
  }

  // '#' or '$' is in the body of a fragment exactly if it is a character of the plain text, or
  // a count byte.
  lemma FramingByte(data: seq<byte>, hexify: bool, c: byte)
    requires c == HASH || c == DOLLAR
    ensures c in Body(Fragment(data, hexify)) <==> (!hexify && c in data) || CountedWith(data, hexify, c)
  {
    var ts := Tokens(Fragment(data, hexify));
    EmitHolds(ts, c);
    CountIff(data, hexify, c);
    assert forall t | t in ts :: c in Emit(t) <==> t.c == c || (t.Run? && Emit(t)[2] == c);
    if hexify {
      HexChars(data, c);
    } else {
      PlainChars(data, c);
    }
  }

  lemma {:induction false} HexChars(data: seq<byte>, c: byte)
    requires c == HASH || c == DOLLAR
    ensures forall t | t in HexTokens(data) :: t.c != c
    decreases |data|
  {
    if data != [] {
      UnitStep(data, true);
      HexChars(data[UnitSize(data, true)..], c);
    }
  }

  // Every count byte is in the range that the protocol can count with.
  lemma CountByteRange(f: Fragment)
    ensures forall t | t in Tokens(f) && t.Run? :: Countable(t) && |Emit(t)| == 3 && 32 <= Emit(t)[2] <= 126
  {
  }

  // A hexified body consists of printable characters; in particular what follows a '*' is one.
  lemma {:induction false} HexBodyPrintable(data: seq<byte>)
    ensures forall c | c in Body(Fragment(data, true)) :: 32 <= c <= 126
    decreases |data|
  {
    if data != [] {
      if StartsRun(data, true) {
        var k := Min(RunLength(data), 49);
        RunStep(data, true, k, Min(|data|, 49));
        HexBodyPrintable(data[k..]);
      } else {
        DigitsStep(data);
        HexBodyPrintable(data[1..]);
      }
    }
  }

  // ---------- inputs that break the framing ----------

  // Runs of seven or eight plain characters alone.
  lemma OneRun(c: byte, n: nat)
    requires 4 <= n <= 98
    ensures Body(Fragment(Repeat(c, n), false)) == [c, STAR, (28 + n) as byte]
  {
    var data := Repeat(c, n);
    RunStep(data, false, n, n);
    assert data[n..] == [];
  }

  // The text that reports thread id 0x11..1, of n digits: "thread:11..1;".
  function ThreadReport(n: nat): seq<byte> {
    [116, 104, 114, 101, 97, 100, 58] + Repeat(49, n) + [59]
  }

  // Thread id 0x1111111 is reported with "1*#", which ends the packet, and 0x11111111 with "1*$".
  lemma ThreadReportBreaks()
    ensures HASH in Body(Fragment(ThreadReport(7), false)) && DOLLAR in Body(Fragment(ThreadReport(8), false))
  {
    FramingByte(ThreadReport(7), false, HASH);
    FramingByte(ThreadReport(8), false, DOLLAR);
    ReportLeaves(7, 0);
    ReportLeaves(8, 0);
  }

  lemma {:induction false} ReportLeaves(n: nat, i: nat)
    requires 2 <= n < 98 && i <= 7
    ensures Leaves(ThreadReport(n)[i..], false, n)
    decreases 7 - i
  {
    var t := ThreadReport(n);
    hide Leaves;
    if i == 7 {
      assert t[7..] == Repeat(49, n) + [59];
      LastDigits(n);
    } else {
      assert t[i] != t[i + 1] && t[i..][1..] == t[i + 1..];
      hide ThreadReport;
      ReportLeaves(n, i + 1);
      OtherByteFirst(t[i..], n);
    }
  }

  lemma OtherByteFirst(data: seq<byte>, n: nat)
    requires |data| > 1 && data[1] != data[0] && Leaves(data[1..], false, n)
    ensures Leaves(data, false, n)
  {
    hide Leaves;
    assert RunLength(data) == 1;
    LeavesByRun(data, false, n);
  }

  lemma LastDigits(n: nat)
    requires 2 <= n < 98
    ensures Leaves(Repeat(49, n) + [59], false, n)
  {
    hide Leaves;
    var d := Repeat(49, n) + [59];
    assert d[0] == 49 && d[n] == 59;
    assert RunLength(d) == n;
    LeavesByRun(d, false, n);
  }

  // Four zero bytes, hexified, are sent as "0*$".
  lemma FourZeroBytesSendDollar()
    ensures Body(Fragment([0, 0, 0, 0], true)) == [48, STAR, DOLLAR]
  {
    var data: seq<byte> := [0, 0, 0, 0];
    RunStep(data, true, 4, 4);
    assert data[4..] == [];
  }

  // ---------- the debugger's reader ----------

  // The first position of c, or the length.
  function First(s: seq<byte>, c: byte): (n: nat)
    ensures n <= |s| && (n < |s| ==> s[n] == c) && forall i | 0 <= i < n :: s[i] != c
  {
    if s == [] || s[0] == c then 0 else 1 + First(s[1..], c)
  }

  // What is behind the last '$' of s.
  function Restarted(s: seq<byte>): (r: seq<byte>) {
    var n := First(s, DOLLAR);
    if n == |s| then s else Restarted(s[n + 1..])
  }

  // A reader starts behind a '$', starts again at every further '$', and stops at the first '#'.
  function BodyRead(packet: seq<byte>): seq<byte>
    requires packet != [] && packet[0] == DOLLAR
  {
    Restarted(packet[1..First(packet, HASH)])
  }

  // The checksum it reads in the two characters behind the '#', or -1.
  function SumRead(packet: seq<byte>): int {
    var n := First(packet, HASH);
    if n + 2 < |packet| && Hex(packet[n + 1]) >= 0 && Hex(packet[n + 2]) >= 0
    then Hex(packet[n + 1]) * 16 + Hex(packet[n + 2]) else -1
  }

  // The fragment's body holds neither '#' nor '$'.
  predicate Clean(f: Fragment) {
    && !CountedWith(f.data, f.hexify, HASH) && !CountedWith(f.data, f.hexify, DOLLAR)
    && (f.hexify || (HASH !in f.data && DOLLAR !in f.data))
  }

  lemma {:induction false} RestartedIff(s: seq<byte>)
    ensures |Restarted(s)| <= |s| && (Restarted(s) == s <==> DOLLAR !in s)
    decreases |s|
  {
    var n := First(s, DOLLAR);
    if n < |s| {
      RestartedIff(s[n + 1..]);
    }
  }

  lemma {:induction false} BodiesHold(fs: seq<Fragment>, c: byte)
    ensures c in Bodies(fs) <==> exists f | f in fs :: c in Body(f)
  {
    hide Body;
    if fs != [] {
      var m := |fs| - 1;
      BodiesHold(fs[..m], c);
      assert Bodies(fs) == Bodies(fs[..m]) + Body(fs[m]);
      hide Bodies;
      if f :| f in fs && c in Body(f) {
        assert f == fs[m] || f in fs[..m];
      }
    }
  }

  lemma FirstHash(frags: seq<Fragment>)
    ensures var b, n := Bodies(frags), First(Packet(frags), HASH);
      && n <= |b| + 1 && (n == |b| + 1 <==> HASH !in b)
      && (n == |b| + 1 ==> Packet(frags)[1..n] == b)
  {
    var b, p := Bodies(frags), Packet(frags);
    hide Bodies, Checksum, HexDigit;
    var n := First(p, HASH);
    assert p[|b| + 1] == HASH && forall i | 0 <= i < |b| :: p[i + 1] == b[i];
    if HASH in b {
      var i :| 0 <= i < |b| && b[i] == HASH;
      assert p[i + 1] == HASH;
    } else {
      forall i | 0 <= i < |b| + 1
        ensures p[i] != HASH
      {
        assert i == 0 || p[i] == b[i - 1];
      }
    }
  }

  lemma CleanIff(f: Fragment)
    ensures Clean(f) <==> HASH !in Body(f) && DOLLAR !in Body(f)
  {
    hide Body, CountedWith;
    FramingByte(f.data, f.hexify, HASH);
    FramingByte(f.data, f.hexify, DOLLAR);
  }

  lemma AllCleanIff(frags: seq<Fragment>)
    ensures (forall f | f in frags :: Clean(f)) <==> HASH !in Bodies(frags) && DOLLAR !in Bodies(frags)
  {
    hide *;
    forall f | f in frags
      ensures Clean(f) <==> HASH !in Body(f) && DOLLAR !in Body(f)
    {
      CleanIff(f);
    }
    BodiesHold(frags, HASH);
    BodiesHold(frags, DOLLAR);
  }

  lemma BodyReadIff(frags: seq<Fragment>)
    ensures HASH !in Bodies(frags) && DOLLAR !in Bodies(frags) <==> BodyRead(Packet(frags)) == Bodies(frags)
  {
    hide Bodies, Checksum, HexDigit, First, Restarted;
    var p := Packet(frags);
    FirstHash(frags);
    RestartedIff(p[1..First(p, HASH)]);
  }

  lemma SumReadBack(frags: seq<Fragment>)
    requires HASH !in Bodies(frags)
    ensures SumRead(Packet(frags)) == Checksum(Bodies(frags)) as int
  {
    hide Bodies, Checksum, First;
    FirstHash(frags);
    var sum := Checksum(Bodies(frags));
    HexInvertsDigit(sum / 16);
    HexInvertsDigit(sum % 16);
  }

  // The reader gets the bodies exactly if every fragment is clean, and then their checksum too.
  lemma PacketReads(frags: seq<Fragment>)
    ensures (forall f | f in frags :: Clean(f)) <==> BodyRead(Packet(frags)) == Bodies(frags)
    ensures (forall f | f in frags :: Clean(f)) ==> SumRead(Packet(frags)) == Checksum(Bodies(frags)) as int
  {
    hide *;
    AllCleanIff(frags);
    BodyReadIff(frags);
    if forall f | f in frags :: Clean(f) {
      SumReadBack(frags);
    }
  }

  // ---------- the whole round trip ----------

  // What a fragment says: its text, or its bytes in hexadecimal digits.
  function Text(f: Fragment): seq<byte> {
    if f.hexify then Hexify(f.data) else f.data
  }

  function Texts(fs: seq<Fragment>): seq<byte> {
    if fs == [] then [] else Texts(fs[..|fs| - 1]) + Text(fs[|fs| - 1])
  }

  ghost function AllTokens(fs: seq<Fragment>): (ts: seq<Token>)
    ensures forall t | t in ts :: Countable(t)
  {
    if fs == [] then [] else AllTokens(fs[..|fs| - 1]) + Tokens(fs[|fs| - 1])
  }

  predicate Starless(f: Fragment) {
    f.hexify || STAR !in f.data
  }

  lemma {:induction false} EmitAppend(a: seq<Token>, b: seq<Token>)
    requires (forall t | t in a :: Countable(t)) && (forall t | t in b :: Countable(t))
    ensures forall t | t in a + b :: Countable(t)
    ensures EmitAll(a + b) == EmitAll(a) + EmitAll(b)
  {
    hide Emit, Countable;
    if a == [] {
      assert a + b == b;
    } else {
      assert (a + b)[1..] == a[1..] + b;
      EmitAppend(a[1..], b);
      assert EmitAll(a + b) == Emit(a[0]) + EmitAll(a[1..] + b);
    }
  }

  lemma {:induction false} MeaningAppend(a: seq<Token>, b: seq<Token>)
    ensures Meaning(a + b) == Meaning(a) + Meaning(b)
  {
    hide Unit;
    if a == [] {
      assert a + b == b;
    } else {
      assert (a + b)[1..] == a[1..] + b;
      MeaningAppend(a[1..], b);
    }
  }

  lemma {:induction false} BodiesMeanTexts(fs: seq<Fragment>)
    requires forall f | f in fs :: Starless(f)
    ensures Bodies(fs) == EmitAll(AllTokens(fs)) && Meaning(AllTokens(fs)) == Texts(fs)
    ensures forall t | t in AllTokens(fs) :: t.c != STAR
  {
    if fs != [] {
      var m := |fs| - 1;
      BodiesMeanTexts(fs[..m]);
      EmitAppend(AllTokens(fs[..m]), Tokens(fs[m]));
      MeaningAppend(AllTokens(fs[..m]), Tokens(fs[m]));
      TokensMeanText(fs[m]);
    }
  }

  lemma TokensMeanText(f: Fragment)
    requires Starless(f)
    ensures Meaning(Tokens(f)) == Text(f) && forall t | t in Tokens(f) :: t.c != STAR
  {
    if f.hexify {
      HexTokensMeanHex(f.data);
    } else {
      PlainTokensMeanData(f.data);
    }
  }

  // The packet of clean fragments without '*' in their plain texts is read, expanded, as what
  // the fragments say.
  lemma PacketRoundTrip(frags: seq<Fragment>)
    requires forall f | f in frags :: Clean(f) && Starless(f)
    ensures Expand(BodyRead(Packet(frags))) == Texts(frags)
  {
    hide Clean;
    PacketReads(frags);
    BodiesMeanTexts(frags);
    ExpandEmitted(AllTokens(frags));
  }
}
