/** What an undisturbed provisioning run does, product by product. */
module SubscriberCalmRuns {
  import opened Prelude
  import opened SubscriberModel
  import opened SubscriberProofs
  import opened SubscriberHistories

  /** `p` has no secret, or its secret names a subscription that was revoked. */
  predicate Needs(c: Config, w: World, p: string) {
    c.Name(p) !in w.secrets || w.secrets[c.Name(p)].subscriptionId.None?
    || w.secrets[c.Name(p)].subscriptionId.value in w.revoked
  }

  function Fix(c: Config, w: World, p: string): World
    requires c.Username() in w.accounts
  {
    var account := w.accounts[c.Username()];
    if !Needs(c, w, p) then w
    else w.(issued := w.issued[w.nextId := Subscription(account.sub, p)], nextId := w.nextId + 1,
            secrets := w.secrets[c.Name(p) := Secret(c.Username(), account.password, account.sub, Some(w.nextId), p)])
  }

  function FixAll(c: Config, w: World, products: seq<string>): World
    requires c.Username() in w.accounts
    decreases |products|
  {
    if products == [] then w else FixAll(c, Fix(c, w, products[0]), products[1..])
  }

  function ActionFor(c: Config, w: World, p: string): Action {
    if !Needs(c, w, p) then Noop else if c.Name(p) in w.secrets then Recreated else Created
  }

  /** A sound, signed-in world in which nothing is on its way. */
  ghost predicate Ready(c: Config, w: World) {
    && Sound(c, w)
    && c.Username() in w.accounts && w.accounts[c.Username()].promoted
  }

  lemma FixKeepsReady(c: Config, w: World, p: string)
    requires Ready(c, w) && p != SUBSCRIBER
    ensures var w1 := Fix(c, w, p);
            && Ready(c, w1) && w1.accounts == w.accounts && !Needs(c, w1, p)
            && (forall q :: q != SUBSCRIBER && q != p ==>
                  (c.Name(q) in w1.secrets <==> c.Name(q) in w.secrets)
                  && (c.Name(q) in w.secrets ==> w1.secrets[c.Name(q)] == w.secrets[c.Name(q)])
                  && (Needs(c, w1, q) <==> Needs(c, w, q)))
  {
    var w1 := Fix(c, w, p);
    forall q | q != SUBSCRIBER && c.Name(q) in w1.secrets ensures Backed(c, w1, q) {
      SecretNamesCollide(c, p, q);
      if q != p || !Needs(c, w, p) { assert Backed(c, w, q); }
    }
    forall q | q != SUBSCRIBER && q != p ensures c.Name(q) != c.Name(p) { SecretNamesCollide(c, p, q); }
  }

  lemma CalmProduct(c: Config, w: World, p: string)
    requires Ready(c, w) && p != SUBSCRIBER
    ensures var account := w.accounts[c.Username()]; var w1 := Fix(c, w, p);
            && c.Name(p) in w1.secrets && w1.secrets[c.Name(p)].subscriptionId.Some?
            && ProvisionProduct(c, State(w, [], None), account.sub, account.password, p)
               == (State(w1, [], None),
                   Ok(Summary(ActionFor(c, w, p), p, w1.secrets[c.Name(p)].subscriptionId.value, c.Name(p))))
  {
    if c.Name(p) in w.secrets { assert Backed(c, w, p); }
  }

  /** Created for a product's first mention without a secret, recreated where the secret's
      subscription is gone, noop otherwise and on every repeat. */
  ghost function ActionAt(c: Config, w: World, products: seq<string>, i: nat): Action
    requires i < |products|
  {
    if products[i] in products[..i] then Noop else ActionFor(c, w, products[i])
  }

  ghost predicate AnswerAt(c: Config, w: World, w1: World, products: seq<string>, i: nat, result: Summary)
    requires i < |products|
  {
    var name := c.Name(products[i]);
    && name in w1.secrets && w1.secrets[name].subscriptionId.Some?
    && result == Summary(ActionAt(c, w, products, i), products[i], w1.secrets[name].subscriptionId.value, name)
  }

  ghost predicate Answers(c: Config, w: World, w1: World, products: seq<string>, results: seq<Summary>) {
    |results| == |products| && forall i :: 0 <= i < |products| ==> AnswerAt(c, w, w1, products, i, results[i])
  }

  /** Exactly the products that needed one got one new subscription; the rest is untouched. */
  ghost predicate Delivered(c: Config, w: World, w1: World, products: seq<string>) {
    && w1.revoked == w.revoked
    && (forall id :: id in w.issued ==> id in w1.issued && w1.issued[id] == w.issued[id])
    && (forall p :: p != SUBSCRIBER && p !in products ==>
          (c.Name(p) in w1.secrets <==> c.Name(p) in w.secrets)
          && (c.Name(p) in w.secrets ==> w1.secrets[c.Name(p)] == w.secrets[c.Name(p)]))
    && (forall p :: p in products ==>
          && c.Name(p) in w1.secrets && !Needs(c, w1, p)
          && (!Needs(c, w, p) ==> w1.secrets[c.Name(p)] == w.secrets[c.Name(p)]))
    && (forall p :: |IssuedFor(w1, p)| == |IssuedFor(w, p)| + (if p in products && Needs(c, w, p) then 1 else 0))
  }

  lemma FixIssues(c: Config, w: World, p: string, q: string)
    requires c.Username() in w.accounts && w.nextId !in w.issued
    ensures var w1 := Fix(c, w, p);
            |IssuedFor(w1, q)| == |IssuedFor(w, q)| + (if q == p && Needs(c, w, p) then 1 else 0)
  {
    var w1 := Fix(c, w, p);
    if q == p && Needs(c, w, p) {
      assert IssuedFor(w1, q) == IssuedFor(w, q) + {w.nextId};
    } else {
      assert IssuedFor(w1, q) == IssuedFor(w, q);
    }
  }

  lemma {:induction false} FixAllDelivers(c: Config, w: World, products: seq<string>)
    requires Ready(c, w) && SUBSCRIBER !in products
    ensures var w1 := FixAll(c, w, products);
            Ready(c, w1) && w1.accounts == w.accounts && Delivered(c, w, w1, products)
    decreases |products|
  {
    if products != [] {
      var p, rest := products[0], products[1..];
      var mid := Fix(c, w, p);
      var w1 := FixAll(c, w, products);
      FixKeepsReady(c, w, p);
      FixAllDelivers(c, mid, rest);
      forall q ensures |IssuedFor(w1, q)| == |IssuedFor(w, q)| + (if q in products && Needs(c, w, q) then 1 else 0) {
        FixIssues(c, w, p, q);
        assert q in products <==> q == p || q in rest;
        if q in rest && q != p { assert q != SUBSCRIBER; }
      }
      forall q | q in products
        ensures c.Name(q) in w1.secrets && !Needs(c, w1, q)
        ensures !Needs(c, w, q) ==> w1.secrets[c.Name(q)] == w.secrets[c.Name(q)]
      {
        if q !in rest { assert q == p; }
      }
    }
  }

  lemma {:induction false} CalmProducts(c: Config, w: World, products: seq<string>)
    requires Ready(c, w) && SUBSCRIBER !in products
    ensures var account := w.accounts[c.Username()]; var w1 := FixAll(c, w, products);
            var (s, r) := ProvisionAll(c, State(w, [], None), account.sub, account.password, products);
            s == State(w1, [], None) && r.Ok? && Answers(c, w, w1, products, r.value)
    decreases |products|
  {
    if products != [] {
      var account := w.accounts[c.Username()];
      var p, rest := products[0], products[1..];
      var mid := Fix(c, w, p);
      CalmProduct(c, w, p);
      FixKeepsReady(c, w, p);
      CalmProducts(c, mid, rest);
      FixAllDelivers(c, mid, rest);
      var first := ProvisionProduct(c, State(w, [], None), account.sub, account.password, p).1.value;
      var tail := ProvisionAll(c, State(mid, [], None), account.sub, account.password, rest).1.value;
      AnswersJoin(c, w, FixAll(c, w, products), products, first, tail);
    }
  }

  /** The first product's answer, then those the rest got in the world its provisioning left. */
  lemma AnswersJoin(c: Config, w: World, w1: World, products: seq<string>, first: Summary, tail: seq<Summary>)
    requires Ready(c, w) && products != [] && SUBSCRIBER !in products
    requires var p := products[0]; var mid := Fix(c, w, p);
             && c.Name(p) in mid.secrets && mid.secrets[c.Name(p)].subscriptionId.Some?
             && first == Summary(ActionFor(c, w, p), p, mid.secrets[c.Name(p)].subscriptionId.value, c.Name(p))
             && Delivered(c, mid, w1, products[1..]) && Answers(c, mid, w1, products[1..], tail)
    ensures Answers(c, w, w1, products, [first] + tail)
  {
    var p, rest := products[0], products[1..];
    var mid, all := Fix(c, w, p), [first] + tail;
    FixKeepsReady(c, w, p);
    assert p in products;
    forall i | 0 <= i < |products| ensures AnswerAt(c, w, w1, products, i, all[i]) {
      if i == 0 {
        if p in rest { assert !Needs(c, mid, p); }
      } else {
        assert products[i] == rest[i - 1] && all[i] == tail[i - 1];
        assert AnswerAt(c, mid, w1, rest, i - 1, tail[i - 1]);
        SameAction(c, w, products, i);
      }
    }
  }

  /** What a later product is answered does not depend on whether the first is provisioned yet. */
  lemma SameAction(c: Config, w: World, products: seq<string>, i: nat)
    requires Ready(c, w) && 0 < i < |products| && SUBSCRIBER !in products
    ensures ActionAt(c, w, products, i) == ActionAt(c, Fix(c, w, products[0]), products[1..], i - 1)
  {
    var p, q := products[0], products[i];
    assert p in products && q in products;
    FixKeepsReady(c, w, p);
    assert products[..i] == [p] + products[1..][..i - 1];
  }

  /** A password can be recovered: some requested product, or the legacy one, has a secret. */
  predicate Recoverable(c: Config, w: World, products: seq<string>) {
    c.LegacyName() in w.secrets || exists i :: 0 <= i < |products| && c.Name(products[i]) in w.secrets
  }

  lemma {:induction false} CalmRecover(c: Config, w: World, names: seq<string>)
    requires Sound(c, w) && forall n :: n in names ==> IsRealName(c, n)
    requires exists n :: n in names && n in w.secrets
    ensures c.Username() in w.accounts
    ensures Recover(State(w, [], None), names) == (State(w, [], None), Ok(Some(w.accounts[c.Username()].password)))
    decreases |names|
  {
    assert names[0] in names;
    var p :| p != SUBSCRIBER && names[0] == c.Name(p);
    if names[0] in w.secrets {
      assert Backed(c, w, p);
    } else {
      CalmRecover(c, w, names[1..]);
    }
  }

  lemma RecoverableNames(c: Config, w: World, products: seq<string>)
    requires Sound(c, w) && SUBSCRIBER !in products && Recoverable(c, w, products)
    ensures var names := Names(c, products) + [c.LegacyName()];
            && c.Username() in w.accounts && Ready(c, w)
            && Recover(State(w, [], None), names) == (State(w, [], None), Ok(Some(w.accounts[c.Username()].password)))
  {
    RealNames(c, products);
    var names := Names(c, products) + [c.LegacyName()];
    if c.LegacyName() in w.secrets {
      assert names[|products|] == c.LegacyName();
    } else {
      var i :| 0 <= i < |products| && c.Name(products[i]) in w.secrets;
      assert names[i] == c.Name(products[i]);
    }
    CalmRecover(c, w, names);
    var n :| n in names && n in w.secrets;
    var p :| p != SUBSCRIBER && n == c.Name(p);
    assert Backed(c, w, p);
  }

  lemma RecoveredRun(c: Config, w: World, products: seq<string>, m: Minted)
    requires Sound(c, w) && products != [] && SUBSCRIBER !in products && Recoverable(c, w, products)
    ensures c.Username() in w.accounts && Ready(c, w)
    ensures var account := w.accounts[c.Username()];
            RunMulti(c, State(w, [], None), products, m)
            == ProvisionAll(c, State(w, [], None), account.sub, account.password, products)
  {
    RecoverableNames(c, w, products);
    var s := State(w, [], None);
    var account := w.accounts[c.Username()];
    assert FindSubscriber(s, c.Username()) == (s, Ok(Some(account.sub)));
    assert SignIn(c.live, s, c.Username(), account.password) == (s, Ok(account.sub));
    assert Enter(c, s, account.password, products) == ProvisionAll(c, s, account.sub, account.password, products);
  }

  /** An undisturbed multi-product run over an account whose password is recoverable succeeds,
      and answers and delivers exactly what each product needs. */
  lemma CalmRunMulti(c: Config, w: World, products: seq<string>, m: Minted)
    requires Sound(c, w) && products != [] && SUBSCRIBER !in products && Recoverable(c, w, products)
    ensures c.Username() in w.accounts
    ensures var (s, r) := RunMulti(c, State(w, [], None), products, m);
            && s == State(FixAll(c, w, products), [], None) && r.Ok?
            && Sound(c, s.world) && s.world.accounts == w.accounts
            && Answers(c, w, s.world, products, r.value) && Delivered(c, w, s.world, products)
  {
    RecoveredRun(c, w, products, m);
    CalmProducts(c, w, products);
    FixAllDelivers(c, w, products);
  }

  /** The orphan guard is exact: with an account in place, an undisturbed run raises if and
      only if no requested product and not the legacy one has a secret. */
  lemma RaisesIffNothingRecoverable(c: Config, w: World, products: seq<string>, m: Minted)
    requires Sound(c, w) && c.Username() in w.accounts && products != [] && SUBSCRIBER !in products
    ensures RunMulti(c, State(w, [], None), products, m).1.Raise? <==> !Recoverable(c, w, products)
  {
    if Recoverable(c, w, products) {
      CalmRunMulti(c, w, products, m);
    } else {
      forall p | p in products ensures c.Name(p) !in w.secrets {
        var i :| 0 <= i < |products| && products[i] == p;
      }
      OrphanedRunRaises(c, w, RunMany(products, [], m));
    }
  }

  lemma NormalProductLeavesSecret(c: Config, s: State, token: nat, password: string, p: string)
    requires ProvisionProduct(c, s, token, password, p).1.Ok?
    ensures var w := ProvisionProduct(c, s, token, password, p).0.world;
            s.world.secrets.Keys + {c.Name(p)} <= w.secrets.Keys
  {
    var (s1, found) := GetSecret(s, c.Name(p));
    if found.value.None? || found.value.value.subscriptionId.None? {
      var (s2, created) := CreateSubscription(s1, token, p);
      var (s3, sub) := FindSubscriber(s2, c.Username());
      assert s3.world.secrets == s.world.secrets;
    }
  }

  /** A run that ended normally, however it was interfered with, left a secret for each product. */
  lemma {:induction false} NormalEndLeavesSecrets(c: Config, s: State, token: nat, password: string, products: seq<string>)
    requires ProvisionAll(c, s, token, password, products).1.Ok?
    ensures var w := ProvisionAll(c, s, token, password, products).0.world;
            && s.world.secrets.Keys <= w.secrets.Keys
            && (forall p :: p in products ==> c.Name(p) in w.secrets.Keys)
    decreases |products|
  {
    if products != [] {
      NormalProductLeavesSecret(c, s, token, password, products[0]);
      var (s1, _) := ProvisionProduct(c, s, token, password, products[0]);
      NormalEndLeavesSecrets(c, s1, token, password, products[1..]);
    }
  }

  /** After any run on `first` that ended normally, an undisturbed run on a list sharing a
      product with it (or once the legacy secret exists) succeeds: exactly one subscription for
      each distinct product that has no live one, noop for the rest, repeats included. */
  lemma IncrementalIdempotence(c: Config, h: History, first: seq<string>, turns: seq<Turn>, m: Minted,
                               second: seq<string>, m': Minted)
    requires Settled(c, h) && SUBSCRIBER !in first && SUBSCRIBER !in second && second != []
    requires var (s, r) := RunMulti(c, State(h.world, turns, None), first, m);
             r.Ok? && ((exists p :: p in first && p in second) || c.LegacyName() in s.world.secrets)
    ensures var w := RunMulti(c, State(h.world, turns, None), first, m).0.world;
            var (s, r) := RunMulti(c, State(w, [], None), second, m');
            && r.Ok? && Answers(c, w, s.world, second, r.value) && Delivered(c, w, s.world, second)
            && (forall p :: p in first && p in second && !Needs(c, w, p) ==> s.world.secrets[c.Name(p)] == w.secrets[c.Name(p)])
  {
    var s0 := State(h.world, turns, None);
    RunMultiKeeps(c, s0, first, m, h.lost);
    var w := RunMulti(c, s0, first, m).0.world;
    FirstRunLeavesSecrets(c, s0, first, m);
    if c.LegacyName() !in w.secrets {
      var p :| p in first && p in second;
      var i :| 0 <= i < |second| && second[i] == p;
      assert c.Name(second[i]) in w.secrets;
    }
    CalmRunMulti(c, w, second, m');
  }

  lemma FirstRunLeavesSecrets(c: Config, s: State, products: seq<string>, m: Minted)
    requires RunMulti(c, s, products, m).1.Ok?
    ensures forall p :: p in products ==> c.Name(p) in RunMulti(c, s, products, m).0.world.secrets
  {
    var (s1, recovered) := Recover(s, Names(c, products) + [c.LegacyName()]);
    var (s2, found) := FindSubscriber(s1, c.Username());
    var (s3, entry) := OpenAccount(c, s2, m);
    var at := if found.value.Some? then s2 else s3;
    var password := if found.value.Some? then recovered.value.value else entry.value.1;
    var (s4, token) := SignIn(c.live, at, c.Username(), password);
    NormalEndLeavesSecrets(c, s4, token.value, password, products);
  }

  /** Running the same list again at once answers noop throughout and changes nothing. */
  lemma {:induction false} FixAllTwice(c: Config, w: World, products: seq<string>)
    requires c.Username() in w.accounts && forall p :: p in products ==> !Needs(c, w, p)
    ensures FixAll(c, w, products) == w
    decreases |products|
  {
    if products != [] {
      assert products[0] in products;
      FixAllTwice(c, w, products[1..]);
    }
  }

  lemma SecondRunChangesNothing(c: Config, w: World, products: seq<string>, m: Minted, m': Minted)
    requires Sound(c, w) && products != [] && SUBSCRIBER !in products && Recoverable(c, w, products)
    ensures var w1 := RunMulti(c, State(w, [], None), products, m).0.world;
            var (s, r) := RunMulti(c, State(w1, [], None), products, m');
            && s.world == w1 && r.Ok? && |r.value| == |products|
            && forall i :: 0 <= i < |products| ==> r.value[i].action == Noop
  {
    CalmRunMulti(c, w, products, m);
    var w1 := FixAll(c, w, products);
    assert products[0] in products;
    CalmRunMulti(c, w1, products, m');
    FixAllTwice(c, w1, products);
    forall i | 0 <= i < |products| ensures ActionFor(c, w1, products[i]) == Noop {
      assert products[i] in products;
    }
  }

  // ---------------------------------------------------------------------------
  // First runs and single-product runs
  // ---------------------------------------------------------------------------

  function AgreedPassword(m: Minted): Password { if m.chosen.Some? then m.chosen.value else m.proposal }

  /** The world with the account opened under the password it really has. */
  function Opened(c: Config, w: World, m: Minted): World {
    w.(accounts := w.accounts[c.Username() := Account(w.nextSub, AgreedPassword(m), true)], nextSub := w.nextSub + 1)
  }

  lemma CalmOpenAccount(c: Config, w: World, m: Minted)
    requires Sound(c, w) && c.Username() !in w.accounts
    ensures OpenAccount(c, State(w, [], None), m) == (State(Opened(c, w, m), [], None), Ok((w.nextSub, AgreedPassword(m))))
    ensures Ready(c, Opened(c, w, m)) && forall p :: p != SUBSCRIBER ==> c.Name(p) !in w.secrets
  {
    forall p | p != SUBSCRIBER ensures c.Name(p) !in w.secrets {}
    var created := Account(w.nextSub, AgreedPassword(m), !c.live);
    var promoted := created.(promoted := true);
    assert w.accounts[c.Username() := created][c.Username() := promoted] == w.accounts[c.Username() := promoted];
  }

  /** With no account yet, an undisturbed run opens one under the password the producer chose
      (or the proposal, if it chose none) and creates one subscription per distinct product. */
  lemma CalmFirstRun(c: Config, w: World, products: seq<string>, m: Minted)
    requires Sound(c, w) && products != [] && SUBSCRIBER !in products && c.Username() !in w.accounts
    ensures var (s, r) := RunMulti(c, State(w, [], None), products, m);
            && r.Ok? && Sound(c, s.world) && s.world.accounts == Opened(c, w, m).accounts
            && Answers(c, Opened(c, w, m), s.world, products, r.value) && Delivered(c, Opened(c, w, m), s.world, products)
            && forall i :: 0 <= i < |products| && products[i] !in products[..i] ==> r.value[i].action == Created
  {
    var s0, w1 := State(w, [], None), Opened(c, w, m);
    CalmOpenAccount(c, w, m);
    CalmProducts(c, w1, products);
    FixAllDelivers(c, w1, products);
    RealNames(c, products);
    var names := Names(c, products) + [c.LegacyName()];
    RecoverNothing(s0, names) by {
      forall n | n in names ensures n !in w.secrets { assert IsRealName(c, n); }
    }
    CalmRecoverNothing(w, names);
    assert RunMulti(c, s0, products, m) == Enter(c, State(w1, [], None), AgreedPassword(m), products);
    forall i | 0 <= i < |products| ensures ActionFor(c, w1, products[i]) == Created {
      assert products[i] in products;
    }
  }

  lemma {:induction false} CalmRecoverNothing(w: World, names: seq<string>)
    requires forall n :: n in names ==> n !in w.secrets
    ensures Recover(State(w, [], None), names) == (State(w, [], None), Ok(None))
    decreases |names|
  {
    if names != [] {
      assert names[0] in names;
      CalmRecoverNothing(w, names[1..]);
    }
  }

  /** The answer names the subscription the legacy secret holds in the end. */
  ghost predicate Reports(c: Config, w: World, action: Action, r: Reply<Summary>) {
    && c.LegacyName() in w.secrets && w.secrets[c.LegacyName()].subscriptionId.Some?
    && r == Ok(Summary(action, TELEMETRY, w.secrets[c.LegacyName()].subscriptionId.value, c.LegacyName()))
  }

  /** A product secret without a subscription id counts as none: an undisturbed provisioning makes a
      subscription and puts a whole new secret in its place. */
  lemma IncompleteSecretIsReplaced(c: Config, w: World, token: nat, password: string, p: string)
    requires c.Name(p) in w.secrets && w.secrets[c.Name(p)].subscriptionId.None? && c.Username() in w.accounts
    ensures var (s, r) := ProvisionProduct(c, State(w, [], None), token, password, p);
            && r == Ok(Summary(Created, p, w.nextId, c.Name(p)))
            && s.world == w.(issued := w.issued[w.nextId := Subscription(token, p)], nextId := w.nextId + 1,
                             secrets := w.secrets[c.Name(p) := Secret(c.Username(), password, w.accounts[c.Username()].sub, Some(w.nextId), p)])
  {}

  /** The single-product run, undisturbed: with the legacy secret it is the multi-product run on
      the telemetry product; without it, it raises on an existing account even when another
      product's secret would have given the password back, and else creates everything. */
  lemma CalmRun(c: Config, w: World, m: Minted)
    requires Sound(c, w)
    ensures var (s, r) := Run(c, State(w, [], None), m);
            if c.LegacyName() in w.secrets then
              c.Username() in w.accounts && s.world == Fix(c, w, TELEMETRY) && Reports(c, s.world, ActionFor(c, w, TELEMETRY), r)
            else if c.Username() in w.accounts then r.Raise? && s.world == w
            else s.world == Fix(c, Opened(c, w, m), TELEMETRY) && Reports(c, s.world, Created, r)
  {
    assert c.Name(TELEMETRY) == c.LegacyName();
    if c.LegacyName() in w.secrets {
      assert Backed(c, w, TELEMETRY);
    } else if c.Username() !in w.accounts {
      CalmOpenAccount(c, w, m);
      var s1 := State(Opened(c, w, m), [], None);
      assert SignIn(c.live, s1, c.Username(), AgreedPassword(m)) == (s1, Ok(w.nextSub));
    }
  }

  /** Undisturbed, a run on a secret with a subscription, sound or not, raises exactly when the
      account is gone or, live, does not sign in with the password kept in it, and then changes
      nothing; else it keeps that subscription exactly when it is live and the account's own. */
  lemma KeptSecretExactly(c: Config, w: World, m: Minted)
    requires c.LegacyName() in w.secrets && w.secrets[c.LegacyName()].subscriptionId.Some?
    ensures var prior := w.secrets[c.LegacyName()]; var id := prior.subscriptionId.value; var (s, r) := Run(c, State(w, [], None), m);
            && (r.Raise? <==> prior.username !in w.accounts
                              || (c.live && (w.accounts[prior.username].password != prior.password || !w.accounts[prior.username].promoted)))
            && (r.Raise? ==> s.world == w)
            && (r.Ok? ==> r.value.action in {Noop, Recreated} && (r.value.action == Noop ==> s.world == w && r.value.subscriptionId == id))
            && (r.Ok? ==> (r.value.action == Noop <==>
                             id in w.issued && id !in w.revoked && w.issued[id].consumerId == w.accounts[prior.username].sub))
  {}
}
