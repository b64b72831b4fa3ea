/** What claims and completely dequeued slots have to do with each other, for both kinds of producer. */
module Claims {
  import opened Common
  import opened Blocks
  import C = DequeueCounters

  /** Slot of index `x` is marked completely dequeued. */
  predicate Fin(B: nat, finIn: seq<set<nat>>, x: nat)
    requires B > 0
  {
    BlockNo(B, x) < |finIn| && Slot(B, x) in finIn[BlockNo(B, x)]
  }

  /** A claimed index is completely dequeued, or its claim is still being worked on. */
  ghost predicate Taken(B: nat, c: C.State, finIn: seq<set<nat>>) {
    && B > 0 && |c.owner| == c.head
    && forall x :: 0 <= x < c.head && !Fin(B, finIn, x) ==>
         && c.owner[x] < |c.threads| && c.threads[c.owner[x]].Claimed?
         && c.threads[c.owner[x]].first <= x < c.threads[c.owner[x]].first + c.threads[c.owner[x]].a
  }

  ghost predicate SameFin(B: nat, finIn: seq<set<nat>>, zfinIn: seq<set<nat>>)
    requires B > 0
  {
    forall x :: Fin(B, finIn, x) <==> Fin(B, zfinIn, x)
  }

  lemma TakenFrame(B: nat, c: C.State, finIn: seq<set<nat>>, zfinIn: seq<set<nat>>)
    requires Taken(B, c, finIn) && SameFin(B, finIn, zfinIn)
    ensures Taken(B, c, zfinIn)
  {
    hide Fin;
  }

  lemma CounterFrame(c: C.State, t: nat, max: nat)
    requires t < |c.threads| && |c.owner| == c.head
    ensures var d := C.Step(c, t, max);
      && d.tail == c.tail && c.head <= d.head && |d.threads| == |c.threads| && c.owner <= d.owner && |d.owner| == d.head
      && (forall j :: 0 <= j < |c.threads| && j != t ==> d.threads[j] == c.threads[j])
      && (forall x :: c.head <= x < d.head ==> d.owner[x] == t)
      && (d.threads[t].Claimed? && !c.threads[t].Claimed? ==>
            d.threads[t].first == c.head && d.head == c.head + d.threads[t].a && d.threads[t].a >= 0)
      && (!d.threads[t].Claimed? ==> d.head == c.head)
  {
  }

  lemma TakenStep(B: nat, c: C.State, finIn: seq<set<nat>>, t: nat, max: nat)
    requires Taken(B, c, finIn) && t < |c.threads| && !c.threads[t].Claimed?
    ensures Taken(B, C.Step(c, t, max), finIn)
  {
    CounterFrame(c, t, max);
    hide Fin, C.Step;
  }

  lemma ClaimHasOne(c: C.State, t: nat)
    requires C.AllAsk(c) && t < |c.threads| && c.threads[t].Claimed?
    ensures c.threads[t].a >= 1
  {
    assert C.Asks(c.threads[t]);
  }

  /** Just the indices of `[i0, i)` are completely dequeued besides those that were. */
  ghost predicate FinPlus(B: nat, finIn: seq<set<nat>>, zfinIn: seq<set<nat>>, i0: nat, i: nat)
    requires B > 0
  {
    forall x: nat :: Fin(B, zfinIn, x) <==> Fin(B, finIn, x) || i0 <= x < i
  }

  ghost predicate NoneFin(B: nat, finIn: seq<set<nat>>, i0: nat, i: nat)
    requires B > 0
  {
    forall x :: i0 <= x < i ==> !Fin(B, finIn, x)
  }

  /** Counting the slots of `[i0, i)`, all in one block and none counted before. */
  lemma CountGrows(B: nat, finIn: seq<set<nat>>, i0: nat, i: nat, k: nat, o: nat, f: set<nat>)
    requires B > 0 && i0 < i <= Base(B, k + 1) && k == BlockNo(B, i0) < |finIn| && o == Slot(B, i0)
    requires f == finIn[k] + Range(o, i - i0) && (forall p :: p in finIn[k] ==> p < B) && NoneFin(B, finIn, i0, i)
    ensures |f| == |finIn[k]| + (i - i0) <= B
    ensures |f| == B ==> f == Range(0, B)
  {
    hide BlockNo, Slot, Base;
    var part: set<nat> := Range(o, i - i0);
    SameBlock(B, i0, i - 1);
    forall p | p in part
      ensures p < B && p !in finIn[k]
    {
      SameBlock(B, i0, i0 + (p - o));
      assert !Fin(B, finIn, i0 + (p - o));
    }
    assert finIn[k] * part == {};
    assert f <= Range(0, B);
    SubsetSize(f, Range(0, B));
  }

  lemma FinGrows(B: nat, finIn: seq<set<nat>>, i0: nat, i: nat, k: nat, o: nat, f: set<nat>)
    requires B > 0 && i0 < i <= Base(B, k + 1) && k == BlockNo(B, i0) < |finIn| && o == Slot(B, i0)
    requires f == finIn[k] + Range(o, i - i0)
    ensures FinPlus(B, finIn, finIn[k := f], i0, i)
  {
    hide BlockNo, Slot, Base;
    Join(B, i0);
    forall x: nat
      ensures Fin(B, finIn[k := f], x) <==> Fin(B, finIn, x) || i0 <= x < i
    {
      Join(B, x);
      if i0 <= x < i {
        SameBlock(B, i0, x);
      }
    }
  }

  lemma TakenCount(B: nat, c: C.State, finIn: seq<set<nat>>, zfinIn: seq<set<nat>>, i0: nat, i: nat)
    requires Taken(B, c, finIn) && FinPlus(B, finIn, zfinIn, i0, i)
    ensures Taken(B, c, zfinIn)
  {
    hide Fin;
  }

  lemma ClaimUnderHead(c: C.State, t: nat)
    requires C.Inv(c) && t < |c.threads|
    ensures c.threads[t].Claimed? ==> c.threads[t].first + c.threads[t].a <= c.head
  {
    assert C.ThreadOk(c, t, c.threads[t]);
  }
}
