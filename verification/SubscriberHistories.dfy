/** Whole histories of provisioning: what no sequence of crashed runs and revocations can break,
    how many subscriptions it can leave behind, and what an undisturbed run does. */
module SubscriberHistories {
  import opened Prelude
  import opened SubscriberModel
  import opened SubscriberProofs

  /** The one product name the secret naming cannot tell from the legacy product. */
  predicate Admissible(e: Event) { e.RunMany? ==> SUBSCRIBER !in e.products }

  ghost predicate Settled(c: Config, h: History) { Quiet(c, State(h.world, [], None), h.lost) }

  lemma EventKeeps(c: Config, h: History, e: Event)
    requires Settled(c, h) && Admissible(e)
    ensures Settled(c, After(c, h, e))
    ensures var unsaved := Outcome(c, h.world, e).2; unsaved.Some? ==> unsaved.value !in h.lost
  {
    OutcomeKeeps(c, h, e);
    var (w, _, unsaved) := Outcome(c, h.world, e);
    LostIsSettled(c, h, w, unsaved);
  }

  lemma OutcomeKeeps(c: Config, h: History, e: Event)
    requires Settled(c, h) && Admissible(e)
    ensures var (w, _, unsaved) := Outcome(c, h.world, e); Kept(c, State(w, [], unsaved), h.lost)
  {
    match e
    case RunOnce(turns, minted) => RunKeeps(c, State(h.world, turns, None), minted, h.lost);
    case RunMany(products, turns, minted) => RunMultiKeeps(c, State(h.world, turns, None), products, minted, h.lost);
    case Revocations(ids) => ArriveKeeps(c, State(h.world, [Turn(ids, true)], None), h.lost);
  }

  lemma LostIsSettled(c: Config, h: History, w: World, unsaved: Option<nat>)
    requires Kept(c, State(w, [], unsaved), h.lost)
    ensures Settled(c, History(w, if unsaved.Some? && unsaved.value in w.issued
                                  then h.lost[unsaved.value := w.issued[unsaved.value].productId] else h.lost))
  {}

  /** Whatever crashed, whatever was revoked: every stored secret names the promoted account,
      carries its real password and `sub`, and a subscription issued to it for that product. */
  lemma {:induction false} HistoryKeeps(c: Config, h: History, es: seq<Event>)
    requires Settled(c, h) && forall e :: e in es ==> Admissible(e)
    ensures Settled(c, Replay(c, h, es))
    decreases |es|
  {
    if es != [] {
      EventKeeps(c, h, es[0]);
      HistoryKeeps(c, After(c, h, es[0]), es[1..]);
    }
  }

  lemma ReachableSecretsAreBacked(c: Config, es: seq<Event>, p: string)
    requires forall e :: e in es ==> Admissible(e)
    requires p != SUBSCRIBER && c.Name(p) in Replay(c, EMPTY, es).world.secrets
    ensures Backed(c, Replay(c, EMPTY, es).world, p)
  {
    HistoryKeeps(c, EMPTY, es);
  }

  /** The naming condition is needed: after one run for the product `subscriber`, the legacy
      product's secret holds a subscription issued for another product. */
  lemma SubscriberProductBreaksLegacySecret(c: Config, m: Minted)
    ensures var w := Replay(c, EMPTY, [RunMany([SUBSCRIBER], [], m)]).world;
            c.Name(TELEMETRY) in w.secrets && !Backed(c, w, TELEMETRY)
  {
    var s := State(EMPTY.world, [], None);
    assert c.LegacyName() == c.Name(SUBSCRIBER);
    var names := Names(c, [SUBSCRIBER]) + [c.LegacyName()];
    assert Recover(s, names) == (s, Ok(None)) by {
      assert Recover(s, names[1..][1..]) == (s, Ok(None));
      assert Recover(s, names[1..]) == (s, Ok(None));
    }
    var (s1, entry) := OpenAccount(c, s, m);
    var (s2, r) := ProvisionProduct(c, s1, entry.value.0, entry.value.1, SUBSCRIBER);
    assert ProvisionAll(c, s2, entry.value.0, entry.value.1, [SUBSCRIBER][1..]).0 == s2;
    assert RunMulti(c, s, [SUBSCRIBER], m).0 == s2;
    var e := RunMany([SUBSCRIBER], [], m);
    assert [e][1..] == [];
    assert Replay(c, EMPTY, [e]) == After(c, EMPTY, e);
  }

  // ---------------------------------------------------------------------------
  // Counting subscriptions
  // ---------------------------------------------------------------------------

  function LostFor(h: History, p: string): set<nat> { set id | id in h.lost && h.lost[id] == p }

  lemma {:induction false} LostCountsGapCrashes(c: Config, h: History, es: seq<Event>, p: string)
    requires Settled(c, h) && forall e :: e in es ==> Admissible(e)
    ensures |LostFor(Replay(c, h, es), p)| == |LostFor(h, p)| + GapCrashes(c, h, es, p)
    decreases |es|
  {
    if es != [] {
      EventKeeps(c, h, es[0]);
      var (w, _, unsaved) := Outcome(c, h.world, es[0]);
      LostAfter(h, w, unsaved, p);
      LostCountsGapCrashes(c, After(c, h, es[0]), es[1..], p);
    }
  }

  lemma LostAfter(h: History, w: World, unsaved: Option<nat>, p: string)
    requires unsaved.Some? ==> unsaved.value !in h.lost
    ensures var gap := unsaved.Some? && unsaved.value in w.issued;
            var h1 := History(w, if gap then h.lost[unsaved.value := w.issued[unsaved.value].productId] else h.lost);
            |LostFor(h1, p)| == |LostFor(h, p)| + if gap && w.issued[unsaved.value].productId == p then 1 else 0
  {
    if unsaved.Some? && unsaved.value in w.issued {
      var h1 := History(w, h.lost[unsaved.value := w.issued[unsaved.value].productId]);
      if w.issued[unsaved.value].productId == p {
        assert LostFor(h1, p) == LostFor(h, p) + {unsaved.value};
      } else {
        assert LostFor(h1, p) == LostFor(h, p);
      }
    }
  }

  lemma CardinalityOfCover(a: set<nat>, b: set<nat>, d: set<nat>, e: set<nat>)
    requires a <= b + d + e
    ensures |a| <= |b| + |d| + |e|
  {
    var u := b + d;
    assert |u| <= |b| + |d| by { assert u == b + (d - b); }
    assert |u + e| <= |u| + |e| by { assert u + e == u + (e - u); }
    Subset(a, u + e);
  }

  lemma Subset(a: set<nat>, b: set<nat>)
    requires a <= b
    ensures |a| <= |b|
  {
    assert b == a + (b - a);
  }

  /** From an empty start, the subscriptions ever created for `p` are at most the one its secret
      names, plus those revoked, plus one for each run that ended between creating a
      subscription for `p` and recording it. */
  lemma SubscriptionsAreBounded(c: Config, es: seq<Event>, p: string)
    requires forall e :: e in es ==> Admissible(e)
    ensures var w := Replay(c, EMPTY, es).world;
            |IssuedFor(w, p)| <= (if c.Name(p) in w.secrets then 1 else 0) + |RevokedFor(w, p)|
                                 + GapCrashes(c, EMPTY, es, p)
  {
    HistoryKeeps(c, EMPTY, es);
    LostCountsGapCrashes(c, EMPTY, es, p);
    assert LostFor(EMPTY, p) == {};
    var h := Replay(c, EMPTY, es);
    var named := if c.Name(p) in h.world.secrets && h.world.secrets[c.Name(p)].subscriptionId.Some?
                 then {h.world.secrets[c.Name(p)].subscriptionId.value} else {};
    forall id | id in IssuedFor(h.world, p) ensures id in named + RevokedFor(h.world, p) + LostFor(h, p) {
      assert id in h.world.revoked || id in h.lost || Recorded(c, h.world, id);
    }
    CardinalityOfCover(IssuedFor(h.world, p), named, RevokedFor(h.world, p), LostFor(h, p));
  }

  // ---------------------------------------------------------------------------
  // Orphaned accounts
  // ---------------------------------------------------------------------------

  /** The account exists and no secret of this provisioner does. */
  ghost predicate Orphaned(c: Config, w: World) {
    c.Username() in w.accounts && forall p :: c.Name(p) !in w.secrets
  }

  ghost predicate SameStores(w: World, w1: World) {
    w1.accounts == w.accounts && w1.secrets == w.secrets && w1.issued == w.issued
  }

  lemma {:induction false} RecoverNothing(s: State, names: seq<string>)
    requires forall n :: n in names ==> n !in s.world.secrets
    ensures var (t, r) := Recover(s, names);
            SameStores(s.world, t.world) && t.unsaved == s.unsaved && (r.Ok? ==> r.value.None?)
    decreases |names|
  {
    if names != [] {
      assert names[0] in names;
      RecoverNothing(GetSecret(s, names[0]).0, names[1..]);
    }
  }

  /** An account none of whose requested products (nor the legacy one) has a secret makes the
      run raise, with accounts, subscriptions and secrets as they were. */
  lemma OrphanedRunRaises(c: Config, w: World, e: Event)
    requires c.Username() in w.accounts && !e.Revocations?
    requires c.LegacyName() !in w.secrets
    requires e.RunMany? ==> forall p :: p in e.products ==> c.Name(p) !in w.secrets
    ensures var (w1, r, unsaved) := Outcome(c, w, e); r.Raise? && unsaved.None? && SameStores(w, w1)
  {
    if e.RunMany? && e.products != [] {
      var names := Names(c, e.products) + [c.LegacyName()];
      forall n | n in names ensures n !in w.secrets {
        if n in Names(c, e.products) {
          var i :| 0 <= i < |e.products| && n == c.Name(e.products[i]);
          assert e.products[i] in e.products;
        }
      }
      var s := State(w, e.turns, None);
      RecoverNothing(s, names);
      var (s1, recovered) := Recover(s, names);
      var (s2, found) := FindSubscriber(s1, c.Username());
      assert found.Ok? ==> found.value.Some?;
      assert recovered.Ok? ==> recovered.value.None?;
      assert recovered.Ok? ==> RunMulti(c, s, e.products, e.minted) == (s2, Raise);
      assert recovered.Raise? ==> RunMulti(c, s, e.products, e.minted) == (s1, Raise);
    }
  }

  /** Once orphaned, always orphaned: no history of runs touches either store again. */
  lemma {:induction false} OrphanedForever(c: Config, h: History, es: seq<Event>)
    requires Orphaned(c, h.world)
    ensures Orphaned(c, Replay(c, h, es).world) && SameStores(h.world, Replay(c, h, es).world)
    decreases |es|
  {
    if es != [] {
      assert c.LegacyName() == c.Name(TELEMETRY);
      if !es[0].Revocations? { OrphanedRunRaises(c, h.world, es[0]); }
      OrphanedForever(c, After(c, h, es[0]), es[1..]);
    }
  }
}
