/** When a step of one thread leaves what another consumer relies on alone. */
module ImplicitFrames {
  import opened Common
  import opened Blocks
  import C = DequeueCounters
  import opened Claims
  import opened ImplicitQueue
  import opened ImplicitInvariant

  /** The older indices are never rewritten, apart from the tail of the published one. */
  ghost predicate SameIndices(hs: seq<Header>, zs: seq<Header>) {
    && |hs| <= |zs|
    && forall g :: 0 <= g < |hs| ==>
         zs[g].cap == hs[g].cap && zs[g].index == hs[g].index && zs[g].off == hs[g].off
  }

  /** Slots fit to be read as a tail stay so. */
  ghost predicate VisKept(B: nat, hs: seq<Header>, entries: seq<Entry>, zs: seq<Header>, zentries: seq<Entry>) {
    && |hs| <= |zs|
    && forall g, p :: 0 <= g < |hs| && Vis(B, hs[g], entries, p) ==> Vis(B, zs[g], zentries, p)
  }

  /** The indices claimed by `t` are completely dequeued in `z` just when they are in `s`, and delivered alike. */
  ghost predicate SameClaim<V>(s: State<V>, z: State<V>, t: nat)
    requires s.B > 0 && z.B == s.B
  {
    forall x :: 0 <= x < |s.c.owner| && s.c.owner[x] == t ==>
      (Fin(s.B, s.finIn, x) <==> Fin(s.B, z.finIn, x)) && (x in s.out <==> x in z.out)
  }

  /** Records of the block numbers below the tail stay. */
  ghost predicate SameBelow(k0: nat, a: seq<nat>, b: seq<nat>) {
    k0 <= |a| && k0 <= |b| && forall k :: 0 <= k < k0 ==> a[k] == b[k]
  }

  ghost predicate SameEnding(phase: seq<Phase>, zphase: seq<Phase>, t: nat) {
    forall k :: 0 <= k < |phase| && (phase[k] == Closing(t) || phase[k] == Closed(t)) ==>
      k < |zphase| && zphase[k] == phase[k]
  }

  ghost predicate Kept<V>(s: State<V>, z: State<V>, t: nat)
    requires s.B > 0
  {
    && z.B == s.B && t < |s.c.threads| && t < |z.c.threads| && z.c.threads[t] == s.c.threads[t]
    && SameClaim(s, z, t) && SameIndices(s.headers, z.headers)
    && SameBelow(s.K0(), s.entryOf, z.entryOf) && SameBelow(s.K0(), s.blockOf, z.blockOf)
    && SameEnding(s.phase, z.phase, t)
  }

  lemma ClaimFrame<V>(s: State<V>, z: State<V>, t: nat, i: nat, u: nat, e: nat)
    requires s.B > 0 && C.Inv(s.c) && Kept(s, z, t) && Claim(s, t, i, u, e)
    ensures Claim(z, t, i, u, e)
  {
    forall x
      ensures s.c.threads[t].first <= x < e ==> x < s.c.head && s.c.owner[x] == t
    {
      C.ClaimOwner(s.c, t, if x >= 0 then x else 0);
    }
    hide C.Inv, Fin;
  }

  lemma ClaimBelow<V>(s: State<V>, t: nat, i: nat, u: nat, e: nat, x: nat)
    requires s.B > 0 && C.Inv(s.c) && Claim(s, t, i, u, e) && i <= x < e
    ensures x < s.c.head <= s.c.tail && BlockNo(s.B, x) < s.K0()
  {
    C.ClaimOwner(s.c, t, x);
    C.NeverOverClaims(s.c);
    CeilSplits(s.B, s.c.tail, x);
  }

  lemma ReachesFrame<V>(s: State<V>, z: State<V>, t: nat, hd: nat, i: nat, u: nat, e: nat)
    requires s.B > 0 && C.Inv(s.c) && Kept(s, z, t) && Claim(s, t, i, u, e) && Reaches(s, hd, i, e)
    ensures Reaches(z, hd, i, e)
  {
    forall x | i <= x < e
      ensures BlockNo(s.B, x) < s.K0()
    {
      ClaimBelow(s, t, i, u, e, x);
    }
    hide C.Inv, Claim, Ceil, SameClaim, SameEnding, BlockNo, Wrap;
  }

  lemma ReaderFrame<V>(s: State<V>, z: State<V>, t: nat, r: Reader)
    requires s.B > 0 && C.Inv(s.c) && Kept(s, z, t) && ReaderOk(s, t, r)
    requires forall k :: s.K0() <= k < |s.phase| ==> s.phase[k] == Open || s.phase[k] == Void || s.phase[k] == Gone
    requires r.LoadIndexTail? && r.hd < |z.headers| ==> Vis(z.B, z.headers[r.hd], z.entries, z.headers[r.hd].tail)
    requires r.LoadKey? && r.hd < |z.headers| ==> Vis(z.B, z.headers[r.hd], z.entries, r.tp)
    ensures ReaderOk(z, t, r)
  {
    hide C.Inv, Claim, Reaches, Vis, BlockNo, Ceil, Wrap, Base;
    match r
    case NotReading =>
    case LoadIndex(i, e) => ClaimFrame(s, z, t, i, i, e);
    case LoadIndexTail(i, e, hd) =>
      ClaimFrame(s, z, t, i, i, e);
      ReachesFrame(s, z, t, hd, i, i, e);
      ReachesIn(s, hd, i, e);
    case LoadKey(i, e, hd, tp) =>
      ClaimFrame(s, z, t, i, i, e);
      ReachesFrame(s, z, t, hd, i, i, e);
      ReachesIn(s, hd, i, e);
    case LoadValue(i, e, hd, idx) =>
      ClaimFrame(s, z, t, i, i, e);
      ReachesFrame(s, z, t, hd, i, i, e);
      ReachesIn(s, hd, i, e);
    case Take(i0, i, e, hd, idx, b) =>
      ClaimFrame(s, z, t, i0, i, e);
      ReachesFrame(s, z, t, hd, i0, i, e);
      ReachesIn(s, hd, i0, e);
      TakeFrame(s, z, t, i0, i, e);
    case ClearEntry(k, i, e, hd, idx, b) => FinishingFrame(s, z, t, k, i, e, hd, idx, b);
    case GiveBack(k, i, e, hd, idx, b) => FinishingFrame(s, z, t, k, i, e, hd, idx, b);
  }

  lemma ReachesIn<V>(s: State<V>, hd: nat, i: nat, e: nat)
    requires s.B > 0 && Reaches(s, hd, i, e)
    ensures hd < |s.headers| && s.headers[hd].cap > 0
  {
  }

  lemma TakeFrame<V>(s: State<V>, z: State<V>, t: nat, i0: nat, i: nat, e: nat)
    requires s.B > 0 && C.Inv(s.c) && Kept(s, z, t) && Claim(s, t, i0, i, e) && i0 < e
    requires forall x :: i0 <= x < i ==> x in s.out && !Fin(s.B, s.finIn, x)
    ensures forall x :: i0 <= x < i ==> x in z.out && !Fin(s.B, z.finIn, x)
    ensures BlockNo(s.B, i0) < s.K0()
    ensures BlockNo(s.B, i0) < |z.blockOf| && z.blockOf[BlockNo(s.B, i0)] == s.blockOf[BlockNo(s.B, i0)]
  {
    ClaimBelow(s, t, i0, i, e, i0);
    forall x | i0 <= x < i
      ensures x < s.c.head && s.c.owner[x] == t
    {
      C.ClaimOwner(s.c, t, x);
    }
    hide C.Inv, Fin, Ceil, BlockNo;
  }

  lemma FinishingFrame<V>(s: State<V>, z: State<V>, t: nat, k: nat, i: nat, e: nat, hd: nat, idx: nat, b: nat)
    requires s.B > 0 && C.Inv(s.c) && Kept(s, z, t) && Finishing(s, t, k, i, e, hd, idx, b)
    requires k < |s.phase| && (s.phase[k] == Closing(t) || s.phase[k] == Closed(t))
    requires forall k :: s.K0() <= k < |s.phase| ==> s.phase[k] == Open || s.phase[k] == Void || s.phase[k] == Gone
    ensures Finishing(z, t, k, i, e, hd, idx, b) && z.phase[k] == s.phase[k]
  {
    ClaimFrame(s, z, t, i, i, e);
    ReachesFrame(s, z, t, hd, i, i, e);
    assert k < s.K0();
    hide C.Inv, Claim, SameClaim, Ceil, BlockNo, Base, Wrap;
  }

  ghost predicate TailsFit<V>(z: State<V>, readers: seq<Reader>) {
    forall t :: 0 <= t < |readers| && readers[t].LoadIndexTail? && readers[t].hd < |z.headers| ==>
      Vis(z.B, z.headers[readers[t].hd], z.entries, z.headers[readers[t].hd].tail)
  }

  /** A step that keeps everything each consumer relies on, and whose new tail, if any, is fit to be read. */
  lemma ReadersFrame<V>(s: State<V>, z: State<V>)
    requires s.B > 0 && C.Inv(s.c) && Readers(s) && z.B == s.B
    requires z.readers == s.readers && |z.c.threads| == |s.c.threads|
    requires Phases(s.B, s.K0(), s.phase, s.finIn, s.readers)
    requires forall t :: 0 <= t < |s.readers| ==> Kept(s, z, t)
    requires VisKept(s.B, s.headers, s.entries, z.headers, z.entries) && TailsFit(z, s.readers)
    ensures Readers(z)
  {
    forall t | 0 <= t < |z.readers|
      ensures ReaderOk(z, t, z.readers[t])
    {
      hide C.Inv, Kept, VisKept;
      ReaderVis(s, z, t, s.readers[t]);
      hide Vis;
      ReaderFrame(s, z, t, s.readers[t]);
    }
  }

  lemma ReaderVis<V>(s: State<V>, z: State<V>, t: nat, r: Reader)
    requires s.B > 0 && t < |s.c.threads| && ReaderOk(s, t, r)
    requires VisKept(s.B, s.headers, s.entries, z.headers, z.entries) && z.B == s.B
    ensures r.LoadKey? && r.hd < |z.headers| ==> Vis(z.B, z.headers[r.hd], z.entries, r.tp)
  {
    hide Claim, Vis, BlockNo;
  }

  /** Tails left alone stay fit. */
  lemma SameTails<V>(s: State<V>, z: State<V>)
    requires s.B > 0 && Readers(s) && z.B == s.B && |s.headers| <= |z.headers|
    requires VisKept(s.B, s.headers, s.entries, z.headers, z.entries)
    requires forall g :: 0 <= g < |s.headers| ==> z.headers[g].tail == s.headers[g].tail
    ensures TailsFit(z, s.readers)
  {
    hide Claim, Vis, BlockNo, Reaches;
    forall t | 0 <= t < |s.readers| && s.readers[t].LoadIndexTail? && s.readers[t].hd < |z.headers|
      ensures Vis(z.B, z.headers[s.readers[t].hd], z.entries, z.headers[s.readers[t].hd].tail)
    {
      assert ReaderOk(s, t, s.readers[t]);
      ReachesIn(s, s.readers[t].hd, s.readers[t].i, s.readers[t].e);
    }
  }

  /** Rewriting values, and no key, keeps slots fit. */
  lemma SameKeys(B: nat, hs: seq<Header>, entries: seq<Entry>, zs: seq<Header>, zentries: seq<Entry>)
    requires SameIndices(hs, zs) && |entries| <= |zentries|
    requires forall e :: 0 <= e < |entries| ==> zentries[e].key == entries[e].key
    ensures VisKept(B, hs, entries, zs, zentries)
  {
    hide Wrap, BlockNo, Slot;
  }
}
