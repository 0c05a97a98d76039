/** The provisioner as the script has it: two stores it changes call by call, and an object
    whose methods drive them.  Each method is proved equal to its function in SubscriberModel,
    whatever the environment does between calls. */
module SubscriberProvisioner {
  import opened Prelude
  import M = SubscriberModel
  import P = SubscriberProofs

  /** The producer's tables and the secrets store.  `rows` holds the live subscriptions only;
      the ghost fields remember what was ever issued and what was revoked. */
  class Stores {
    const live: bool
    var subscribers: map<string, M.Account>
    var rows: map<nat, M.Subscription>
    var store: map<string, M.Secret>
    var nextSub: nat
    var nextId: nat
    var turns: seq<M.Turn>
    ghost var issued: map<nat, M.Subscription>
    ghost var revoked: set<nat>
    ghost var unsaved: Option<nat>

    ghost predicate Valid() reads this {
      && rows == (map id | id in issued && id !in revoked :: issued[id])
      && revoked <= issued.Keys
      && forall id :: id in issued ==> id < nextId
    }

    ghost function Abs(): M.State reads this {
      M.State(M.World(subscribers, issued, revoked, store, nextSub, nextId), turns, unsaved)
    }

    constructor (live: bool, turns: seq<M.Turn>)
      ensures Valid() && this.live == live
      ensures Abs() == M.State(M.EMPTY.world, turns, None)
    {
      this.live, this.turns := live, turns;
      subscribers, rows, store, nextSub, nextId := map[], map[], map[], 0, 0;
      issued, revoked, unsaved := map[], {}, None;
    }

    /** The environment's turn before a call; `up` is false when the call does not go through. */
    method Arrive() returns (up: bool)
      requires Valid()
      modifies this
      ensures Valid() && up == M.Up(old(Abs())) && Abs() == M.Arrive(old(Abs()))
    {
      up := true;
      if turns != [] {
        var turn := turns[0];
        up, turns := turn.up, turns[1..];
        rows := rows - turn.revoke;
        revoked := revoked + (turn.revoke * issued.Keys);
      }
    }

    method Get(name: string) returns (r: Reply<Option<M.Secret>>)
      requires Valid()
      modifies this
      ensures Valid() && (Abs(), r) == M.GetSecret(old(Abs()), name)
    {
      var up := Arrive();
      r := if !up then Raise else if name in store then Ok(Some(store[name])) else Ok(None);
    }

    method Put(name: string, value: M.Secret) returns (r: Reply<()>)
      requires Valid()
      modifies this
      ensures Valid() && (Abs(), r) == M.PutSecret(old(Abs()), name, value)
    {
      var up := Arrive();
      if !up { return Raise; }
      store := store[name := value];
      unsaved := None;
      return Ok(());
    }

    method FindSubscriber(username: string) returns (r: Reply<Option<nat>>)
      requires Valid()
      modifies this
      ensures Valid() && (Abs(), r) == M.FindSubscriber(old(Abs()), username)
    {
      var up := Arrive();
      r := if !up then Raise else if username in subscribers then Ok(Some(subscribers[username].sub)) else Ok(None);
    }

    method CreateSubscriber(username: string, m: M.Minted) returns (r: Reply<(nat, Option<M.Password>)>)
      requires Valid()
      modifies this
      ensures Valid() && (Abs(), r) == M.CreateSubscriber(live, old(Abs()), username, m)
    {
      var up := Arrive();
      if !up || username in subscribers { return Raise; }
      var password := if m.chosen.Some? then m.chosen.value else m.proposal;
      var sub := nextSub;
      subscribers := subscribers[username := M.Account(sub, password, !live)];
      nextSub := nextSub + 1;
      return Ok((sub, m.chosen));
    }

    method SetPermanentPassword(username: string, password: M.Password) returns (r: Reply<()>)
      requires Valid() && live
      modifies this
      ensures Valid() && (Abs(), r) == M.Promote(live, old(Abs()), username, password)
    {
      var up := Arrive();
      if !up || username !in subscribers { return Raise; }
      subscribers := subscribers[username := subscribers[username].(password := password, promoted := true)];
      return Ok(());
    }

    method SignIn(username: string, password: string) returns (r: Reply<nat>)
      requires Valid()
      modifies this
      ensures Valid() && (Abs(), r) == M.SignIn(live, old(Abs()), username, password)
    {
      var up := Arrive();
      if !up || username !in subscribers { return Raise; }
      var account := subscribers[username];
      r := if live && (account.password != password || !account.promoted) then Raise else Ok(account.sub);
    }

    method ListSubscriptions(token: nat) returns (r: Reply<set<nat>>)
      requires Valid()
      modifies this
      ensures Valid() && (Abs(), r) == M.ListSubscriptions(old(Abs()), token)
    {
      var up := Arrive();
      if !up { return Raise; }
      var ids := set id | id in rows && rows[id].consumerId == token;
      assert ids == set id | id in issued && M.Live(Abs().world, id) && issued[id].consumerId == token;
      return Ok(ids);
    }

    method CreateSubscription(token: nat, productId: string) returns (r: Reply<nat>)
      requires Valid()
      modifies this
      ensures Valid() && (Abs(), r) == M.CreateSubscription(old(Abs()), token, productId)
    {
      var up := Arrive();
      if !up { return Raise; }
      var id := nextId;
      rows := rows[id := M.Subscription(token, productId)];
      nextId := nextId + 1;
      issued := issued[id := M.Subscription(token, productId)];
      unsaved := Some(id);
      return Ok(id);
    }
  }

  class Provisioner {
    const c: M.Config
    const stores: Stores

    ghost predicate Valid() reads this, stores { stores.Valid() && stores.live == c.live }

    constructor (c: M.Config, stores: Stores)
      requires stores.Valid() && stores.live == c.live
      ensures Valid() && this.c == c && this.stores == stores
    {
      this.c, this.stores := c, stores;
    }

    /** A dry run makes no call at all.  A live one raises exactly when the call does not go
        through or there is no such account; else that account alone changes, to one that signs in
        with this password, and keeps its `sub`. */
    method PromotePassword(password: M.Password) returns (r: Reply<()>)
      requires Valid()
      modifies stores
      ensures Valid() && (stores.Abs(), r) == M.Promote(c.live, old(stores.Abs()), c.Username(), password)
      ensures !c.live ==> r == Ok(()) && stores.Abs() == old(stores.Abs())
      ensures c.live ==> (r.Raise? <==> !M.Up(old(stores.Abs())) || c.Username() !in old(stores.subscribers))
      ensures r.Raise? ==> stores.subscribers == old(stores.subscribers)
      ensures c.live && r.Ok? ==>
                && P.SignedIn(c, stores.Abs().world, old(stores.subscribers)[c.Username()].sub, password)
                && stores.subscribers - {c.Username()} == old(stores.subscribers) - {c.Username()}
      ensures stores.store == old(stores.store) && stores.issued == old(stores.issued) && stores.unsaved == old(stores.unsaved)
    {
      if !c.live { return Ok(()); }
      r := stores.SetPermanentPassword(c.Username(), password);
    }

    method Recreate(token: nat, name: string, prior: M.Secret, productId: string) returns (r: Reply<M.Summary>)
      requires Valid()
      modifies stores
      ensures Valid() && (stores.Abs(), r) == M.Recreate(old(stores.Abs()), token, name, prior, productId)
    {
      var created := stores.CreateSubscription(token, productId);
      if created.Raise? { return Raise; }
      var saved := stores.Put(name, prior.(subscriptionId := Some(created.value)));
      r := if saved.Raise? then Raise else Ok(M.Summary(M.Recreated, productId, created.value, name));
    }

    method Refresh(token: nat, name: string, prior: M.Secret, productId: string) returns (r: Reply<M.Summary>)
      requires Valid() && prior.subscriptionId.Some?
      modifies stores
      ensures Valid() && (stores.Abs(), r) == M.Refresh(old(stores.Abs()), token, name, prior, productId)
    {
      var subs := stores.ListSubscriptions(token);
      if subs.Raise? { return Raise; }
      if prior.subscriptionId.value in subs.value {
        return Ok(M.Summary(M.Noop, productId, prior.subscriptionId.value, name));
      }
      r := Recreate(token, name, prior, productId);
    }

    method OpenAccount(m: M.Minted) returns (r: Reply<(nat, M.Password)>)
      requires Valid()
      modifies stores
      ensures Valid() && (stores.Abs(), r) == M.OpenAccount(c, old(stores.Abs()), m)
    {
      var made := stores.CreateSubscriber(c.Username(), m);
      if made.Raise? { return Raise; }
      var password := if made.value.1.Some? then made.value.1.value else m.proposal;
      var done := PromotePassword(password);
      r := if done.Raise? then Raise else Ok((made.value.0, password));
    }

    method FirstTime(m: M.Minted) returns (r: Reply<M.Summary>)
      requires Valid()
      modifies stores
      ensures Valid() && (stores.Abs(), r) == M.FirstTime(c, old(stores.Abs()), m)
    {
      var found := stores.FindSubscriber(c.Username());
      if found.Raise? || found.value.Some? { return Raise; }
      var entry := OpenAccount(m);
      if entry.Raise? { return Raise; }
      var token := stores.SignIn(c.Username(), entry.value.1);
      if token.Raise? { return Raise; }
      var created := stores.CreateSubscription(token.value, M.TELEMETRY);
      if created.Raise? { return Raise; }
      var saved := stores.Put(c.LegacyName(),
                              M.Secret(c.Username(), entry.value.1, entry.value.0, Some(created.value), M.TELEMETRY));
      r := if saved.Raise? then Raise else Ok(M.Summary(M.Created, M.TELEMETRY, created.value, c.LegacyName()));
    }

    /** However the run ends: every secret stays backed by the account and its subscription, and
        every subscription accounted for; only one that raises may leave one unrecorded. */
    method Run(m: M.Minted, ghost lost: map<nat, string>) returns (r: Reply<M.Summary>)
      requires Valid()
      modifies stores
      ensures Valid() && (stores.Abs(), r) == M.Run(c, old(stores.Abs()), m)
      ensures P.Quiet(c, old(stores.Abs()), lost) ==> P.Kept(c, stores.Abs(), lost) && (r.Ok? ==> P.Quiet(c, stores.Abs(), lost))
    {
      if P.Quiet(c, stores.Abs(), lost) { P.RunKeeps(c, stores.Abs(), m, lost); }
      var found := stores.Get(c.LegacyName());
      if found.Raise? { return Raise; }
      if found.value.Some? && found.value.value.subscriptionId.Some? {
        var prior := found.value.value;
        var token := stores.SignIn(prior.username, prior.password);
        if token.Raise? { return Raise; }
        r := Refresh(token.value, c.LegacyName(), prior, M.TELEMETRY);
      } else {
        r := FirstTime(m);
      }
    }

    method ProvisionProduct(token: nat, password: string, productId: string) returns (r: Reply<M.Summary>)
      requires Valid()
      modifies stores
      ensures Valid() && (stores.Abs(), r) == M.ProvisionProduct(c, old(stores.Abs()), token, password, productId)
    {
      var found := stores.Get(c.Name(productId));
      if found.Raise? { return Raise; }
      if found.value.Some? && found.value.value.subscriptionId.Some? {
        r := Refresh(token, c.Name(productId), found.value.value, productId);
        return;
      }
      var created := stores.CreateSubscription(token, productId);
      if created.Raise? { return Raise; }
      var sub := stores.FindSubscriber(c.Username());
      if sub.Raise? || sub.value.None? { return Raise; }
      var saved := stores.Put(c.Name(productId),
                              M.Secret(c.Username(), password, sub.value.value, Some(created.value), productId));
      r := if saved.Raise? then Raise else Ok(M.Summary(M.Created, productId, created.value, c.Name(productId)));
    }

    method Recover(names: seq<string>) returns (r: Reply<Option<M.Password>>)
      requires Valid()
      modifies stores
      ensures Valid() && (stores.Abs(), r) == M.Recover(old(stores.Abs()), names)
    {
      var i := 0;
      while i < |names|
        invariant 0 <= i <= |names| && Valid()
        invariant M.Recover(stores.Abs(), names[i..]) == M.Recover(old(stores.Abs()), names)
      {
        var found := stores.Get(names[i]);
        if found.Raise? { return Raise; }
        if found.value.Some? && found.value.value.password != "" { return Ok(Some(found.value.value.password)); }
        i := i + 1;
      }
      return Ok(None);
    }

    /** As `Run`, for product lists without the one name that shares the legacy secret's. */
    method RunMulti(products: seq<string>, m: M.Minted, ghost lost: map<nat, string>) returns (r: Reply<seq<M.Summary>>)
      requires Valid()
      modifies stores
      ensures Valid() && (stores.Abs(), r) == M.RunMulti(c, old(stores.Abs()), products, m)
      ensures P.Quiet(c, old(stores.Abs()), lost) && M.SUBSCRIBER !in products ==>
                P.Kept(c, stores.Abs(), lost) && (r.Ok? ==> P.Quiet(c, stores.Abs(), lost))
    {
      if P.Quiet(c, stores.Abs(), lost) && M.SUBSCRIBER !in products { P.RunMultiKeeps(c, stores.Abs(), products, m, lost); }
      if products == [] { return Raise; }
      var recovered := Recover(M.Names(c, products) + [c.LegacyName()]);
      if recovered.Raise? { return Raise; }
      var found := stores.FindSubscriber(c.Username());
      if found.Raise? || (found.value.Some? && recovered.value.None?) { return Raise; }
      var password: M.Password;
      if found.value.Some? {
        password := recovered.value.value;
      } else {
        var entry := OpenAccount(m);
        if entry.Raise? { return Raise; }
        password := entry.value.1;
      }
      r := Enter(password, products);
    }

    method Enter(password: M.Password, products: seq<string>) returns (r: Reply<seq<M.Summary>>)
      requires Valid()
      modifies stores
      ensures Valid() && (stores.Abs(), r) == M.Enter(c, old(stores.Abs()), password, products)
    {
      var token := stores.SignIn(c.Username(), password);
      if token.Raise? { return Raise; }
      r := ProvisionAll(token.value, password, products);
    }

    method ProvisionAll(token: nat, password: string, products: seq<string>) returns (r: Reply<seq<M.Summary>>)
      requires Valid()
      modifies stores
      ensures Valid() && (stores.Abs(), r) == M.ProvisionAll(c, old(stores.Abs()), token, password, products)
    {
      ghost var whole := M.ProvisionAll(c, stores.Abs(), token, password, products);
      var results: seq<M.Summary> := [];
      var i := 0;
      OnwardFromNothing(whole);
      assert products[0..] == products;
      while i < |products|
        invariant 0 <= i <= |products| && Valid()
        invariant whole == Onward(results, M.ProvisionAll(c, stores.Abs(), token, password, products[i..]))
      {
        OneProduct(c, stores.Abs(), token, password, products, i, results);
        var result := ProvisionProduct(token, password, products[i]);
        if result.Raise? { return Raise; }
        results := results + [result.value];
        i := i + 1;
      }
      assert products[i..] == [] && results + [] == results;
      return Ok(results);
    }

    static lemma OneProduct(c: M.Config, s: M.State, token: nat, password: string, products: seq<string>, i: nat, results: seq<M.Summary>)
      requires i < |products|
      ensures var (t, first) := M.ProvisionProduct(c, s, token, password, products[i]);
              Onward(results, M.ProvisionAll(c, s, token, password, products[i..]))
              == if first.Raise? then (t, Raise)
                 else Onward(results + [first.value], M.ProvisionAll(c, t, token, password, products[i + 1..]))
    {
      assert products[i..][0] == products[i] && products[i..][1..] == products[i + 1..];
      var (t, first) := M.ProvisionProduct(c, s, token, password, products[i]);
      var rest := M.ProvisionAll(c, t, token, password, products[i + 1..]);
      if first.Ok? {
        assert M.ProvisionAll(c, s, token, password, products[i..]) == Onward([first.value], rest);
        OnwardStep(results, first.value, rest);
      }
    }

    /** The answer of the whole loop, given the results so far and that of the rest. */
    ghost static function Onward(results: seq<M.Summary>, rest: (M.State, Reply<seq<M.Summary>>)): (M.State, Reply<seq<M.Summary>>) {
      (rest.0, if rest.1.Raise? then Raise else Ok(results + rest.1.value))
    }

    static lemma OnwardFromNothing(rest: (M.State, Reply<seq<M.Summary>>))
      ensures Onward([], rest) == rest
    {
      if rest.1.Ok? { assert [] + rest.1.value == rest.1.value; }
    }

    static lemma OnwardStep(results: seq<M.Summary>, next: M.Summary, rest: (M.State, Reply<seq<M.Summary>>))
      ensures Onward(results, Onward([next], rest)) == Onward(results + [next], rest)
    {
      if rest.1.Ok? { assert results + ([next] + rest.1.value) == results + [next] + rest.1.value; }
    }
  }
}
