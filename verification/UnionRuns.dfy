/** The multiplexer's union and the clients over runs: when the one is what the
    others ask for. */
module UnionRuns {
  import opened Bytes
  import opened MuxMessage
  import opened Subscription
  import opened Manager
  import opened Runs
  import opened Filters
  import opened Unions
  import opened FineRuns

  /** The steps that compute the union anew: a connected client's SUBSCRIBE is
      taken, or a client is removed. */
  ghost predicate Recomputes<C>(s: Sys<C>, x: Step<C>)
    requires Possible(s, x)
  {
    || (x.World? && x.world.ReadError?)
    || (x.Take? && s.m.queue[0].client.Some? && s.m.queue[0].client.value in s.m.clients
        && s.m.queue[0].message.typ == SUBSCRIBE && Forwarded(s.m.queue[0].message))
  }

  /** A refusal that brings back a union the clients do not ask for. */
  ghost predicate Spoils<C>(s: Sys<C>, x: Step<C>)
    requires WellFormed(s.m) && Possible(s, x)
  {
    x.Arrive? && Refuses(s, x.reply) && s.m.prevFilter != Everyone(s.m)
  }

  /** Whether such a refusal was accepted in a run after the last time the union
      was computed; `was` says so of what went before. */
  ghost predicate Spoiled<C>(s: Sys<C>, xs: seq<Step<C>>, was: bool)
    requires FineInv(s) && CanDo(s, xs)
    decreases |xs|
  {
    if |xs| == 0 then was
    else
      DoFine(s, xs[0]);
      Spoiled(Do(s, xs[0]), xs[1..], SpoiledNext(s, xs[0], was))
  }

  ghost predicate SpoiledNext<C>(s: Sys<C>, x: Step<C>, was: bool)
    requires WellFormed(s.m) && Possible(s, x)
  {
    Spoils(s, x) || (was && !Recomputes(s, x))
  }

  /** The union is everyone's, or it is the saved one and that is not. */
  ghost predicate Tracked<C>(s: Sys<C>, spoiled: bool)
    requires WellFormed(s.m)
  {
    s.m.running ==>
      if spoiled then s.m.filterUnion == s.m.prevFilter && s.m.prevFilter != Everyone(s.m)
      else s.m.filterUnion == Everyone(s.m)
  }

  /** A step that neither computes the union nor refuses leaves the union, the
      saved one and what the clients ask for alone, while the connection
      stands. */
  lemma StepSameUnions<C>(s: Sys<C>, x: Step<C>)
    requires FineInv(s) && WellFormed(s.m) && Possible(s, x) && !Recomputes(s, x)
    requires !(x.Arrive? && Refuses(s, x.reply))
    ensures WellFormed(Do(s, x).m)
    ensures var t := Do(s, x);
            t.m.running ==> t.m.filterUnion == s.m.filterUnion && t.m.prevFilter == s.m.prevFilter
                            && Everyone(t.m) == Everyone(s.m)
  {
    DoFine(s, x);
    hide FineInv;
    match x
    case Take => TakeSameEveryone(s);
    case Send => hide WellFormed;
    case Wake => hide WellFormed;
    case Clear => ClearSameEveryone(s);
    case Arrive(r) => ArriveSameEveryone(s, r); hide WellFormed, Everyone;
    case World(w) => WorldSameEveryone(s, w);
  }

  lemma TakeSameEveryone<C>(s: Sys<C>)
    requires WellFormed(s.m) && Possible(s, Take) && !Recomputes(s, Take) && WellFormed(Do(s, Take).m)
    ensures var t := Do(s, Take);
            t.m.filterUnion == s.m.filterUnion && t.m.prevFilter == s.m.prevFilter && Everyone(t.m) == Everyone(s.m)
  {
    hide NoDuplicates, Union, VectorToFilter, FilterToVector, LocalReply;
    var t := Do(s, Take);
    assert s.m.queue[0] in s.m.queue;
    assert Pending(t.m.peers, t.m.clients) == Pending(s.m.peers, s.m.clients);
  }

  lemma ClearSameEveryone<C>(s: Sys<C>)
    requires WellFormed(s.m) && Possible(s, Clear) && WellFormed(Do(s, Clear).m)
    ensures var t := Do(s, Clear);
            t.m.running ==> t.m.filterUnion == s.m.filterUnion && t.m.prevFilter == s.m.prevFilter
                            && Everyone(t.m) == Everyone(s.m)
  {
    hide NoDuplicates, Union;
  }

  lemma WorldSameEveryone<C>(s: Sys<C>, w: World<C>)
    requires WellFormed(s.m) && Possible(s, World(w)) && !w.ReadError? && WellFormed(Do(s, World(w)).m)
    ensures var t := Do(s, World(w));
            t.m.running ==> t.m.filterUnion == s.m.filterUnion && t.m.prevFilter == s.m.prevFilter
                            && Everyone(t.m) == Everyone(s.m)
  {
    var t := Do(s, World(w));
    var p, q := Pending(s.m.peers, s.m.clients), Pending(t.m.peers, t.m.clients);
    match w
    case Connect(c, _) =>
      assert q == p + [NO_PARAMS];
      assert q[..|q| - 1] == p;
      JoinNothing(Union(p));
    case Notification(_, _) =>
      hide FilterMatch, NoDuplicates, Union;
      assert q == p;
    case _ => hide NoDuplicates, Union;
  }

  lemma RecomputeMatches<C>(s: Sys<C>, x: Step<C>)
    requires WellFormed(s.m) && Possible(s, x) && Recomputes(s, x) && WellFormed(Do(s, x).m)
    ensures Do(s, x).m.filterUnion == Everyone(Do(s, x).m)
  {
    hide NoDuplicates, Union, VectorToFilter, FilterToVector, Covered, Without;
    if x.World? {
      RemoveEffect(s.m, x.world.client);
      hide RemoveClient, Pending;
    } else {
      assert s.m.queue[0] in s.m.queue;
    }
  }

  lemma StepTracked<C>(s: Sys<C>, x: Step<C>, was: bool)
    requires FineInv(s) && WellFormed(s.m) && Possible(s, x) && Tracked(s, was)
    ensures WellFormed(Do(s, x).m) && Tracked(Do(s, x), SpoiledNext(s, x, was))
  {
    DoFine(s, x);
    hide FineInv, WellFormed, Everyone;
    if Recomputes(s, x) {
      RecomputeMatches(s, x);
    } else if x.Arrive? && Refuses(s, x.reply) {
      ArriveSameEveryone(s, x.reply);
      RefusalRestores(s, x.reply);
    } else {
      StepSameUnions(s, x);
      hide Recomputes, Do;
    }
  }

  lemma RefusalRestores<C>(s: Sys<C>, r: Reply)
    requires WellFormed(s.m) && Refuses(s, r)
    ensures Receive(s, r).m.filterUnion == s.m.prevFilter && Receive(s, r).m.prevFilter == s.m.prevFilter
  {
    hide WellFormed;
  }

  lemma {:induction false} RunTracked<C>(s: Sys<C>, xs: seq<Step<C>>, was: bool)
    requires FineInv(s) && WellFormed(s.m) && CanDo(s, xs) && Tracked(s, was)
    ensures WellFormed(DoAll(s, xs).m) && Tracked(DoAll(s, xs), Spoiled(s, xs, was))
    decreases |xs|
  {
    hide FineInv, WellFormed, Do, Possible, Tracked, SpoiledNext;
    if |xs| > 0 {
      DoFine(s, xs[0]);
      StepTracked(s, xs[0], was);
      RunTracked(Do(s, xs[0]), xs[1..], SpoiledNext(s, xs[0], was));
    }
  }

  /** In every state of every fine run while the connection stands, the union is
      that of all clients if and only if no error answer to a SUBSCRIBE that
      brought back another one was accepted since the union was last computed. */
  lemma UnionExactIff<C>(s: Sys<C>, retries: nat, xs: seq<Step<C>>)
    requires FineReachedBy(s, retries, xs) && s.m.running
    ensures WellFormed(s.m)
    ensures s.m.filterUnion == Everyone(s.m) <==> !Spoiled(Init<C>(retries), xs, false)
  {
    FineForm(s);
    StartTracked<C>(retries);
    hide FineInv, WellFormed, Everyone;
    RunTracked(Init<C>(retries), xs, false);
  }

  lemma StartTracked<C>(retries: nat)
    ensures WellFormed(Init<C>(retries).m) && Tracked(Init<C>(retries), false)
  {
  }
}
