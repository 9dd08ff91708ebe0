/**
 The packet encoder of the GDB stub (kernel/gdb_serial.c): hexadecimal expansion, run-length
 encoding and checksum, with the reader of the GDB Remote Serial Protocol as the partner:
 a character, '*' and a count byte n stand for the character followed by n - 29 repeats.
 */
module GdbEncoder {
  import opened Bytes

  const DOLLAR: byte := 36
  const HASH: byte := 35
  const STAR: byte := 42
  const PLUS: byte := 43

  // ---------- hexadecimal digits ----------

  function HexDigit(n: byte): (c: byte)
    requires n < 16
    ensures c != STAR && c != DOLLAR && c != HASH
  {
    if n < 10 then 48 + n else 87 + n
  }

  // hex: the value of a hexadecimal digit of either case, or -1.
  function Hex(c: byte): (v: int) {
    if 48 <= c <= 57 then c as int - 48
    else if 97 <= c <= 102 then c as int - 97 + 10
    else if 65 <= c <= 70 then c as int - 65 + 10
    else -1
  }

  lemma HexInvertsDigit(n: byte)
    requires n < 16
    ensures Hex(HexDigit(n)) == n as int
  {
  }

  function Hexify(data: seq<byte>): (h: seq<byte>)
    ensures |h| == 2 * |data|
  {
    if data == [] then []
    else [HexDigit(data[0] / 16), HexDigit(data[0] % 16)] + Hexify(data[1..])
  }

  lemma {:induction false} HexifyAppend(a: seq<byte>, b: seq<byte>)
    ensures Hexify(a + b) == Hexify(a) + Hexify(b)
  {
    if a == [] {
      assert a + b == b;
    } else {
      HexifyAppend(a[1..], b);
      assert (a + b)[1..] == a[1..] + b;
    }
  }

  // ---------- the reader: expansion of the run-length encoding ----------

  function Repeat(c: byte, n: nat): (s: seq<byte>)
    ensures |s| == n && forall i | 0 <= i < n :: s[i] == c
  {
    seq(n, _ => c)
  }

  function Expand(body: seq<byte>): seq<byte> {
    if body == [] then []
    else if |body| >= 3 && body[1] == STAR && body[2] >= 29 then
      Repeat(body[0], 1 + (body[2] - 29) as int) + Expand(body[3..])
    else
      [body[0]] + Expand(body[1..])
  }

  // ---------- the encoder ----------

  // One output unit: a plain character, or a run of n of them.
  datatype Token = Plain(c: byte) | Run(c: byte, n: nat)

  // The run lengths the encoder uses: long enough to pay off, short enough to count in a byte.
  ghost predicate Countable(t: Token) {
    t.Run? ==> 4 <= t.n <= 98
  }

  ghost function Emit(t: Token): (s: seq<byte>)
    requires Countable(t)
  {
    match t
    case Plain(c) => [c]
    case Run(c, n) => [c, STAR, (29 + n - 1) as byte]
  }

  ghost function EmitAll(ts: seq<Token>): seq<byte>
    requires forall t | t in ts :: Countable(t)
  {
    if ts == [] then [] else Emit(ts[0]) + EmitAll(ts[1..])
  }

  ghost function Unit(t: Token): seq<byte> {
    match t
    case Plain(c) => [c]
    case Run(c, n) => Repeat(c, n)
  }

  ghost function Meaning(ts: seq<Token>): seq<byte> {
    if ts == [] then [] else Unit(ts[0]) + Meaning(ts[1..])
  }

  lemma MeaningCons(t: Token, rest: seq<Token>)
    ensures Meaning([t] + rest) == Unit(t) + Meaning(rest)
  {
    assert ([t] + rest)[1..] == rest;
  }

  // The reader recovers what the tokens mean, as long as '*' is never a character of its own.
  lemma {:induction false} ExpandEmitted(ts: seq<Token>)
    requires forall t | t in ts :: Countable(t) && t.c != STAR
    ensures Expand(EmitAll(ts)) == Meaning(ts)
  {
    if ts != [] {
      assert Countable(ts[0]) && ts[0].c != STAR;
      ExpandEmitted(ts[1..]);
      NoStarFirst(ts[1..]);
      ExpandToken(ts[0], EmitAll(ts[1..]));
    }
  }

  lemma NoStarFirst(ts: seq<Token>)
    requires forall t | t in ts :: Countable(t) && t.c != STAR
    ensures EmitAll(ts) != [] ==> EmitAll(ts)[0] != STAR
  {
    if ts != [] {
      assert Countable(ts[0]) && ts[0].c != STAR;
    }
  }

  // The reader takes one unit at a time.
  lemma ExpandToken(t: Token, rest: seq<byte>)
    requires Countable(t) && t.c != STAR && (rest != [] ==> rest[0] != STAR)
    ensures Expand(Emit(t) + rest) == Unit(t) + Expand(rest)
  {
    hide Repeat;
    match t
    case Plain(c) =>
      assert ([c] + rest)[1..] == rest;
    case Run(c, n) =>
      var body := [c, STAR, (29 + n - 1) as byte] + rest;
      assert body[3..] == rest;
  }

  // How many bytes equal to the first one the data starts with.
  function RunLength(data: seq<byte>): (n: nat)
    requires data != []
    ensures 1 <= n <= |data| && (forall i | 0 <= i < n :: data[i] == data[0])
    ensures n < |data| ==> data[n] != data[0]
  {
    if |data| == 1 || data[1] != data[0] then 1
    else
      assert data[1..][0] == data[0];
      var n := 1 + RunLength(data[1..]);
      assert forall i | 1 <= i < n :: data[i] == data[1..][i - 1];
      assert n < |data| ==> data[n] == data[1..][n - 1];
      n
  }

  predicate EqualNibbles(b: byte) {
    b / 16 == b % 16
  }

  function Min(a: nat, b: nat): nat {
    if a < b then a else b
  }

  // The units for hexified data: a run of at least two bytes with equal nibbles becomes one
  // run, cut after 49 bytes; any other byte becomes its two digits.
  ghost function HexTokens(data: seq<byte>): (ts: seq<Token>)
    ensures forall t | t in ts :: Countable(t) && t.c != STAR
    decreases |data|
  {
    if data == [] then []
    else if |data| > 1 && data[1] == data[0] && EqualNibbles(data[0]) then
      var k := Min(RunLength(data), 49);
      [Run(HexDigit(data[0] % 16), 2 * k)] + HexTokens(data[k..])
    else
      [Plain(HexDigit(data[0] / 16)), Plain(HexDigit(data[0] % 16))] + HexTokens(data[1..])
  }

  lemma HexifyRun(b: byte, k: nat)
    requires EqualNibbles(b)
    ensures Hexify(Repeat(b, k)) == Repeat(HexDigit(b % 16), 2 * k)
  {
    if k > 0 {
      HexifyRun(b, k - 1);
      assert Repeat(b, k)[1..] == Repeat(b, k - 1);
    }
  }

  lemma RunMeansHex(data: seq<byte>, k: nat, rest: seq<Token>)
    requires data != [] && EqualNibbles(data[0]) && k <= RunLength(data)
    requires Meaning(rest) == Hexify(data[k..])
    ensures Meaning([Run(HexDigit(data[0] % 16), 2 * k)] + rest) == Hexify(data)
  {
    MeaningCons(Run(HexDigit(data[0] % 16), 2 * k), rest);
    RunThenRest(data, k);
    HexifyAppend(Repeat(data[0], k), data[k..]);
    HexifyRun(data[0], k);
  }

  lemma DigitsMeanHex(data: seq<byte>, rest: seq<Token>)
    requires data != [] && Meaning(rest) == Hexify(data[1..])
    ensures Meaning([Plain(HexDigit(data[0] / 16)), Plain(HexDigit(data[0] % 16))] + rest) == Hexify(data)
  {
    var a, b := Plain(HexDigit(data[0] / 16)), Plain(HexDigit(data[0] % 16));
    MeaningCons(b, rest);
    MeaningCons(a, [b] + rest);
    assert [a, b] + rest == [a] + ([b] + rest);
  }

  lemma {:induction false} HexTokensMeanHex(data: seq<byte>)
    ensures Meaning(HexTokens(data)) == Hexify(data)
    decreases |data|
  {
    if data == [] {
    } else if |data| > 1 && data[1] == data[0] && EqualNibbles(data[0]) {
      var k := Min(RunLength(data), 49);
      HexTokensMeanHex(data[k..]);
      RunMeansHex(data, k, HexTokens(data[k..]));
    } else {
      HexTokensMeanHex(data[1..]);
      DigitsMeanHex(data, HexTokens(data[1..]));
    }
  }

  // ---------- plain fragments ----------

  // The units for a plain fragment: four or more equal bytes become runs of at most 98.
  ghost function PlainTokens(data: seq<byte>): (ts: seq<Token>)
    ensures forall t | t in ts :: Countable(t) && t.c in data
    decreases |data|
  {
    if data == [] then []
    else if RunLength(data) >= 4 then
      var k := Min(RunLength(data), 98);
      [Run(data[0], k)] + PlainTokens(data[k..])
    else
      [Plain(data[0])] + PlainTokens(data[1..])
  }

  lemma RunThenRest(data: seq<byte>, k: nat)
    requires data != [] && k <= RunLength(data)
    ensures data == Repeat(data[0], k) + data[k..]
  {
    hide RunLength;
  }

  lemma {:induction false} PlainTokensMeanData(data: seq<byte>)
    ensures Meaning(PlainTokens(data)) == data
    decreases |data|
  {
    hide Meaning, RunLength, Repeat;
    if data == [] {
      assert Meaning([]) == [] by { MeaningNil(); }
    } else if RunLength(data) >= 4 {
      var k := Min(RunLength(data), 98);
      PlainTokensMeanData(data[k..]);
      MeaningCons(Run(data[0], k), PlainTokens(data[k..]));
      RunThenRest(data, k);
    } else {
      PlainTokensMeanData(data[1..]);
      MeaningCons(Plain(data[0]), PlainTokens(data[1..]));
    }
  }

  lemma MeaningNil()
    ensures Meaning([]) == []
  {
  }

  // ---------- the packet ----------

  // A fragment: its bytes and whether they are sent as hexadecimal digits.
  datatype Fragment = Fragment(data: seq<byte>, hexify: bool)

  ghost function Tokens(f: Fragment): (ts: seq<Token>)
    ensures forall t | t in ts :: Countable(t)
  {
    if f.hexify then HexTokens(f.data) else PlainTokens(f.data)
  }

  ghost function Body(f: Fragment): seq<byte> {
    EmitAll(Tokens(f))
  }

  ghost function Bodies(fs: seq<Fragment>): seq<byte> {
    if fs == [] then [] else Bodies(fs[..|fs| - 1]) + Body(fs[|fs| - 1])
  }

  function Checksum(s: seq<byte>): (c: byte) {
    if s == [] then 0 else ((Checksum(s[..|s| - 1]) as int + s[|s| - 1] as int) % 256) as byte
  }

  // Expanding the body of a hexified fragment gives the plain hexadecimal form of its bytes.
  lemma HexBodyExpands(data: seq<byte>)
    ensures Expand(Body(Fragment(data, true))) == Hexify(data)
  {
    ExpandEmitted(HexTokens(data));
    HexTokensMeanHex(data);
  }

  // Expanding the body of a plain fragment gives its text back when the text has no '*'.
  lemma PlainBodyExpands(data: seq<byte>)
    requires STAR !in data
    ensures Expand(Body(Fragment(data, false))) == data
  {
    ExpandEmitted(PlainTokens(data));
    PlainTokensMeanData(data);
  }

  lemma EmitCons(t: Token, rest: seq<Token>)
    requires Countable(t) && forall u | u in rest :: Countable(u)
    ensures forall u | u in [t] + rest :: Countable(u)
    ensures EmitAll([t] + rest) == Emit(t) + EmitAll(rest)
  {
    assert ([t] + rest)[1..] == rest;
  }

  // Whether the encoder starts a run at the head of the data.
  predicate StartsRun(data: seq<byte>, hexify: bool) {
    |data| > 1 && data[1] == data[0] &&
    if hexify then EqualNibbles(data[0]) else |data| > 3 && data[2] == data[0] && data[3] == data[0]
  }

  // A run sends its character, '*' and the count, and goes on behind the run.
  lemma RunStep(data: seq<byte>, hexify: bool, k: nat, limit: nat)
    requires StartsRun(data, hexify)
    requires k <= limit == Min(|data|, if hexify then 49 else 98)
    requires k >= (if hexify then 2 else 4) && forall i | 0 <= i < k :: data[i] == data[0]
    requires k == limit || data[k] != data[0]
    ensures var rl := if hexify then 2 * k else k;
      4 <= rl <= 98 &&
      Body(Fragment(data, hexify))
      == [if hexify then HexDigit(data[0] % 16) else data[0], STAR, (29 + rl - 1) as byte]
         + Body(Fragment(data[k..], hexify))
  {
    hide RunLength, EmitAll, Emit;
    assert k == Min(RunLength(data), if hexify then 49 else 98);
    if hexify {
      RunEmitted(HexDigit(data[0] % 16), 2 * k);
      EmitCons(Run(HexDigit(data[0] % 16), 2 * k), HexTokens(data[k..]));
    } else {
      RunEmitted(data[0], k);
      EmitCons(Run(data[0], k), PlainTokens(data[k..]));
    }
  }

  lemma RunEmitted(c: byte, n: nat)
    requires 4 <= n <= 98
    ensures Emit(Run(c, n)) == [c, STAR, (29 + n - 1) as byte]
  {
  }

  lemma DigitsStep(data: seq<byte>)
    requires data != [] && !StartsRun(data, true)
    ensures Body(Fragment(data, true))
         == [HexDigit(data[0] / 16), HexDigit(data[0] % 16)] + Body(Fragment(data[1..], true))
  {
    var rest := HexTokens(data[1..]);
    var a, b := HexDigit(data[0] / 16), HexDigit(data[0] % 16);
    assert HexTokens(data) == [Plain(a), Plain(b)] + rest;
    hide *;
    TwoPlain(a, b, rest);
    assert Body(Fragment(data, true)) == EmitAll(HexTokens(data)) by {
      HexBody(data);
    }
    HexBody(data[1..]);
  }

  lemma HexBody(data: seq<byte>)
    ensures Body(Fragment(data, true)) == EmitAll(HexTokens(data))
  {
  }

  lemma TwoPlain(a: byte, b: byte, rest: seq<Token>)
    requires forall t | t in rest :: Countable(t)
    ensures forall t | t in [Plain(a), Plain(b)] + rest :: Countable(t)
    ensures EmitAll([Plain(a), Plain(b)] + rest) == [a, b] + EmitAll(rest)
  {
    EmitCons(Plain(b), rest);
    EmitCons(Plain(a), [Plain(b)] + rest);
    assert [Plain(a), Plain(b)] + rest == [Plain(a)] + ([Plain(b)] + rest);
  }

  lemma PlainStep(data: seq<byte>)
    requires data != [] && !StartsRun(data, false)
    ensures Body(Fragment(data, false)) == [data[0]] + Body(Fragment(data[1..], false))
  {
    assert RunLength(data) < 4;
    EmitCons(Plain(data[0]), PlainTokens(data[1..]));
  }

  // A fragment as it is passed to putfrags: memory, and the number of bytes to send, or 0 for
  // a text that ends with a zero byte.
  datatype OutFrag = OutFrag(data: seq<byte>, len: nat, hexify: bool)

  predicate WellFormed(o: OutFrag) {
    if o.len == 0 then 0 in o.data else o.len <= |o.data|
  }

  function TextLength(data: seq<byte>): (n: nat)
    requires 0 in data
    ensures n < |data| && data[n] == 0 && forall i | 0 <= i < n :: data[i] != 0
  {
    if data[0] == 0 then 0 else 1 + TextLength(data[1..])
  }

  function Length(o: OutFrag): (n: nat)
    requires WellFormed(o)
    ensures n <= |o.data|
  {
    if o.len == 0 then TextLength(o.data) else o.len
  }

  // The bytes it stands for.
  function Cut(o: OutFrag): Fragment
    requires WellFormed(o)
  {
    Fragment(o.data[..Length(o)], o.hexify)
  }

  ghost function CutAll(os: seq<OutFrag>): (fs: seq<Fragment>)
    requires forall o | o in os :: WellFormed(o)
    ensures |fs| == |os| && forall i | 0 <= i < |fs| :: fs[i] == Cut(os[i])
  {
    seq(|os|, i requires 0 <= i < |os| => Cut(os[i]))
  }

  // Whether there is a byte to send at p.
  predicate More(o: OutFrag, p: nat)
    requires WellFormed(o) && p <= Length(o)
    ensures More(o, p) <==> p < Length(o)
  {
    if o.len != 0 then p < o.len else o.data[p] != 0
  }

  // The test for a run at p. In a text it is the zero byte that ends it, not a bound.
  predicate RunAt(o: OutFrag, p: nat)
    requires WellFormed(o) && p < Length(o)
    ensures RunAt(o, p) <==> StartsRun(Cut(o).data[p..], o.hexify)
  {
    var d, n := o.data, Length(o);
    assert forall i | p <= i < n :: d[..n][p..][i - p] == d[i];
    && (o.len == 0 || p + (if o.hexify then 1 else 3) < o.len)
    && d[p + 1] == d[p]
    && if o.hexify then EqualNibbles(d[p]) else d[p + 2] == d[p] && d[p + 3] == d[p]
  }

  // The end of the run that starts at p, at most 49 (98) bytes further on.
  method RunEnd(o: OutFrag, p: nat) returns (q: nat)
    requires WellFormed(o) && p < Length(o) && RunAt(o, p)
    ensures p + (if o.hexify then 2 else 4) <= q <= Length(o)
    ensures var limit := Min(Length(o) - p, if o.hexify then 49 else 98);
      q - p <= limit && (forall i | p <= i < q :: o.data[i] == o.data[p])
      && (q - p == limit || o.data[q] != o.data[p])
  {
    var limit: nat;
    if o.hexify {
      q, limit := p + 2, p + 49;
    } else {
      q, limit := p + 4, p + 98;
    }
    if o.len != 0 && limit > o.len {
      limit := o.len;
    }
    while q < limit && o.data[q] == o.data[p]
      invariant p + (if o.hexify then 2 else 4) <= q <= limit && q <= Length(o)
      invariant forall i | p <= i < q :: o.data[i] == o.data[p]
    {
      q := q + 1;
    }
  }

  // The run from p to q is sent as its character, '*' and the count.
  lemma RunSent(o: OutFrag, p: nat, q: nat)
    requires WellFormed(o) && p < Length(o) && RunAt(o, p) && p + (if o.hexify then 2 else 4) <= q <= Length(o)
    requires var limit := Min(Length(o) - p, if o.hexify then 49 else 98);
      q - p <= limit && (forall i | p <= i < q :: o.data[i] == o.data[p])
      && (q - p == limit || o.data[q] != o.data[p])
    ensures var d, c := Cut(o).data, o.data[p];
      Body(Fragment(d[p..], o.hexify))
      == [if o.hexify then HexDigit(c % 16) else c, STAR, (28 + if o.hexify then 2 * (q - p) else q - p) as byte]
         + Body(Fragment(d[q..], o.hexify))
  {
    hide Body, StartsRun, HexDigit;
    var d, k := Cut(o).data, q - p;
    var t := d[p..];
    assert |t| == Length(o) - p;
    assert forall i | 0 <= i < |t| :: t[i] == o.data[p + i];
    assert t[k..] == d[q..];
    RunStep(t, o.hexify, k, Min(|t|, if o.hexify then 49 else 98));
  }

  // A byte that starts no run is sent as two digits or as it is.
  lemma ByteSent(o: OutFrag, p: nat)
    requires WellFormed(o) && p < Length(o) && !RunAt(o, p)
    ensures var d, c := Cut(o).data, o.data[p];
      Body(Fragment(d[p..], o.hexify))
      == (if o.hexify then [HexDigit(c / 16), HexDigit(c % 16)] else [c]) + Body(Fragment(d[p + 1..], o.hexify))
  {
    hide Body, StartsRun, HexDigit;
    var t := Cut(o).data[p..];
    assert t[0] == o.data[p] && t[1..] == Cut(o).data[p + 1..];
    if o.hexify {
      DigitsStep(t);
    } else {
      PlainStep(t);
    }
  }

  // One turn of putfrags' inner loop: a run, a pair of digits or one plain character.
  method PutUnit(o: OutFrag, p: nat) returns (out: seq<byte>, q: nat)
    requires WellFormed(o) && p < Length(o)
    ensures p < q <= Length(o)
    ensures var d := Cut(o).data;
      Body(Fragment(d[p..], o.hexify)) == out + Body(Fragment(d[q..], o.hexify))
  {
    hide Body, StartsRun, HexDigit;
    var c := o.data[p];
    if RunAt(o, p) {
      q := RunEnd(o, p);
      RunSent(o, p, q);
      var rl := if o.hexify then (q - p) * 2 else q - p;
      out := [if o.hexify then HexDigit(c % 16) else c, STAR, (29 + rl - 1) as byte];
    } else {
      q := p + 1;
      ByteSent(o, p);
      out := if o.hexify then [HexDigit(c / 16), HexDigit(c % 16)] else [c];
    }
  }

  // putfrags, inner loop over one fragment.
  method PutFragment(o: OutFrag) returns (body: seq<byte>)
    requires WellFormed(o)
    ensures body == Body(Cut(o))
  {
    hide Body, TextLength;
    body := [];
    var p := 0;
    ghost var d := Cut(o).data;
    assert d[0..] == d;
    while More(o, p)
      invariant 0 <= p <= Length(o)
      invariant Body(Cut(o)) == body + Body(Fragment(d[p..], o.hexify))
      decreases Length(o) - p
    {
      var out, q := PutUnit(o, p);
      body := body + out;
      p := q;
    }
    EmptyBody(o.hexify);
    assert d[p..] == [];
  }

  lemma EmptyBody(hexify: bool)
    ensures Body(Fragment([], hexify)) == []
  {
  }

  // SEND each byte of a body, adding it to the checksum.
  method SendBody(sent0: seq<byte>, body: seq<byte>) returns (sent: seq<byte>, checksum: byte)
    ensures sent == sent0 + body && checksum == Checksum(sent)
  {
    sent, checksum := sent0, Checksum(sent0);
    assert sent0 + body[..0] == sent0;
    for i := 0 to |body|
      invariant sent == sent0 + body[..i] && checksum == Checksum(sent)
    {
      ChecksumAppend(sent, body[i]);
      assert sent + [body[i]] == sent0 + body[..i + 1];
      sent := sent + [body[i]];
      checksum := ((checksum as int + body[i] as int) % 256) as byte;
    }
  }

  lemma ChecksumAppend(s: seq<byte>, c: byte)
    ensures Checksum(s + [c]) as int == (Checksum(s) as int + c as int) % 256
  {
    assert (s + [c])[..|s|] == s;
  }

  // '$', the bodies, '#' and the checksum of the bodies in two digits.
  ghost function Packet(frags: seq<Fragment>): seq<byte> {
    var sum := Checksum(Bodies(frags));
    [DOLLAR] + Bodies(frags) + [HASH, HexDigit(sum / 16), HexDigit(sum % 16)]
  }

  // One turn of putfrags' outer loop.
  method PutPacket(frags: seq<OutFrag>) returns (packet: seq<byte>)
    requires forall o | o in frags :: WellFormed(o)
    ensures packet == Packet(CutAll(frags))
  {
    var sent, checksum: byte := [], 0;
    ghost var cut := CutAll(frags);
    assert cut[..0] == [];
    for f := 0 to |frags|
      invariant sent == Bodies(cut[..f]) && checksum == Checksum(sent)
    {
      assert cut[..f + 1][..f] == cut[..f];
      var body := PutFragment(frags[f]);
      sent, checksum := SendBody(sent, body);
    }
    assert cut[..|frags|] == cut;
    packet := [DOLLAR] + sent + [HASH, HexDigit(checksum / 16), HexDigit(checksum % 16)];
  }

  // The debugger's acknowledgement, in seven bits.
  predicate Acknowledges(reply: byte) {
    reply % 128 == PLUS
  }

  // How often the packet is sent when these replies come in.
  function Sendings(replies: seq<byte>): (n: nat)
    ensures 1 <= n <= |replies| + 1
    ensures forall i | 0 <= i < n - 1 :: !Acknowledges(replies[i])
    ensures n <= |replies| ==> Acknowledges(replies[n - 1])
  {
    if replies == [] || Acknowledges(replies[0]) then 1 else 1 + Sendings(replies[1..])
  }

  lemma SendingsAre(replies: seq<byte>, n: nat)
    requires 1 <= n <= |replies| + 1 && forall i | 0 <= i < n - 1 :: !Acknowledges(replies[i])
    requires n <= |replies| ==> Acknowledges(replies[n - 1])
    ensures Sendings(replies) == n
  {
  }

  ghost function Times(s: seq<byte>, n: nat): seq<byte> {
    if n == 0 then [] else Times(s, n - 1) + s
  }

  // putfrags: the whole packet is sent again until a reply acknowledges it; without one it
  // waits for the next reply.
  method PutFrags(frags: seq<OutFrag>, replies: seq<byte>) returns (line: seq<byte>, acknowledged: bool)
    requires forall o | o in frags :: WellFormed(o)
    ensures line == Times(Packet(CutAll(frags)), Sendings(replies))
    ensures acknowledged <==> exists i | 0 <= i < |replies| :: Acknowledges(replies[i])
  {
    line, acknowledged := [], false;
    var n := 0;
    hide Packet;
    while true
      invariant n <= |replies| && line == Times(Packet(CutAll(frags)), n)
      invariant forall i | 0 <= i < n :: !Acknowledges(replies[i])
      decreases |replies| - n
    {
      var packet := PutPacket(frags);
      line := line + packet;
      if n == |replies| || Acknowledges(replies[n]) {
        acknowledged := n < |replies|;
        SendingsAre(replies, n + 1);
        return;
      }
      n := n + 1;
    }
  }

  // ---------- reading hexadecimal back ----------

  predicate IsHex(s: seq<byte>) {
    forall c | c in s :: Hex(c) >= 0
  }

  // The bytes that pairs of digits stand for.
  function Unhex(s: seq<byte>): (data: seq<byte>)
    requires |s| % 2 == 0 && IsHex(s)
    ensures |data| == |s| / 2
  {
    if s == [] then []
    else [(Hex(s[0]) * 16 + Hex(s[1])) as byte] + Unhex(s[2..])
  }

  lemma {:induction false} UnhexOfHexify(data: seq<byte>)
    ensures IsHex(Hexify(data)) && Unhex(Hexify(data)) == data
  {
    if data != [] {
      UnhexOfHexify(data[1..]);
      var h := Hexify(data);
      assert h[2..] == Hexify(data[1..]);
      HexInvertsDigit(data[0] / 16);
      HexInvertsDigit(data[0] % 16);
      assert forall c | c in h :: c == h[0] || c == h[1] || c in h[2..];
    }
  }

  lemma {:induction false} UnhexAppend(s: seq<byte>, a: byte, b: byte)
    requires |s| % 2 == 0 && IsHex(s) && Hex(a) >= 0 && Hex(b) >= 0
    ensures IsHex(s + [a, b]) && Unhex(s + [a, b]) == Unhex(s) + [(Hex(a) * 16 + Hex(b)) as byte]
  {
    var t := s + [a, b];
    if s != [] {
      UnhexAppend(s[2..], a, b);
      assert t[2..] == s[2..] + [a, b];
    } else {
      assert t[2..] == [];
    }
  }

  // hex2bin: fails exactly when one of the 2 * len characters is no digit; the bytes
  // decoded before the first bad pair are stored, the rest of the buffer is untouched.
  method Hex2Bin(input: seq<byte>, out: array<byte>, len: nat) returns (r: int)
    requires 2 * len <= |input| && len <= out.Length
    modifies out
    ensures r == 0 || r == -1
    ensures r == 0 <==> IsHex(input[..2 * len])
    ensures r == 0 ==> out[..len] == Unhex(input[..2 * len])
    ensures exists k: nat | k <= len && IsHex(input[..2 * k]) ::
      && out[..] == Unhex(input[..2 * k]) + old(out[..])[k..]
      && if r == 0 then k == len else k < len && !IsHex(input[2 * k..2 * k + 2])
  {
    var i := 0;
    while i < len
      invariant 0 <= i <= len
      invariant IsHex(input[..2 * i]) && out[..i] == Unhex(input[..2 * i])
      invariant out[i..] == old(out[..])[i..]
    {
      var hi, lo := Hex(input[2 * i]), Hex(input[2 * i + 1]);
      if hi < 0 || lo < 0 {
        assert input[2 * i] in input[..2 * len] && input[2 * i + 1] in input[..2 * len];
        assert input[2 * i] in input[2 * i..2 * i + 2] && input[2 * i + 1] in input[2 * i..2 * i + 2];
        assert out[..] == out[..i] + out[i..];
        return -1;
      }
      assert input[..2 * (i + 1)] == input[..2 * i] + [input[2 * i], input[2 * i + 1]];
      UnhexAppend(input[..2 * i], input[2 * i], input[2 * i + 1]);
      out[i] := (hi * 16 + lo) as byte;
      assert out[..i + 1] == out[..i] + [out[i]];
      i := i + 1;
    }
    assert out[..] == out[..i] + out[i..];
    return 0;
  }

  // The round trip: encode, expand, read the digits back.
  lemma EncodeRoundTrip(data: seq<byte>)
    ensures var h := Expand(Body(Fragment(data, true)));
      IsHex(h) && |h| % 2 == 0 && Unhex(h) == data
  {
    HexBodyExpands(data);
    UnhexOfHexify(data);
  }
}
