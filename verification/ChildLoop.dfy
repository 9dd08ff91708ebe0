/**
 The loop over the children of a process that becomes a zombie, as it is written
 (kernel/process.c:109-119): after destroying a child it goes on with the same child, whose
 link has just been cleared.
 */
module ChildLoop {
  import opened ProcessLists
  import opened ProcessModel
  import opened ProcessGraves

  // The loop ends, or it follows the null link of the child it has destroyed.
  datatype Walk = Ends(destroyed: set<int>) | NullLink(child: int)

  // The children from the current one on. The loop only leaves a destroyed child if it was last.
  function Written(procs: seq<Proc>, kids: seq<int>): Walk
    requires InTable(|procs|, kids)
  {
    if kids == [] then Ends({})
    else if procs[kids[0]].status != Zombie then Written(procs, kids[1..])
    else if |kids| == 1 then Ends({kids[0]})
    else NullLink(kids[0])
  }

  // The loop works if and only if no child but the last is a zombie; then it destroys exactly
  // the zombies among the children.
  lemma {:induction false} WrittenIff(procs: seq<Proc>, kids: seq<int>)
    requires InTable(|procs|, kids)
    ensures Written(procs, kids).Ends? <==> forall i | 0 <= i < |kids| - 1 :: procs[kids[i]].status != Zombie
    ensures Written(procs, kids).Ends? ==>
      Written(procs, kids).destroyed == set c | c in kids && 0 <= c < |procs| && procs[c].status == Zombie
  {
    if kids != [] && procs[kids[0]].status != Zombie {
      WrittenIff(procs, kids[1..]);
      assert forall i | 0 < i < |kids| :: kids[i] == kids[1..][i - 1];
      assert forall c :: c in kids <==> c == kids[0] || c in kids[1..];
    } else if |kids| > 1 {
      assert procs[kids[0]].status == Zombie;
    }
  }

  // Where it works, it destroys the children that the intended loop destroys.
  lemma WrittenIsIntended(k: Kernel, p: int)
    requires Shape(k) && Slot(p) && Written(k.procs, k.procs[p].children).Ends?
    ensures Written(k.procs, k.procs[p].children).destroyed == ZombieKids(k, p, |k.procs[p].children|)
  {
    var kids := k.procs[p].children;
    WrittenIff(k.procs, kids);
    assert kids[..|kids|] == kids;
  }

  // Two zombie children are enough to break it.
  lemma TwoZombiesBreakIt(procs: seq<Proc>, c: int, d: int)
    requires 0 <= c < |procs| && 0 <= d < |procs| && procs[c].status == Zombie
    ensures Written(procs, [c, d]) == NullLink(c)
  {
  }
}
