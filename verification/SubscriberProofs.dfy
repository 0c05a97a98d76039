/** What every history of provisioning runs keeps. */
module SubscriberProofs {
  import opened Prelude
  import opened SubscriberModel

  // ---------------------------------------------------------------------------
  // Secret names
  // ---------------------------------------------------------------------------

  lemma PaddingCancels(prefix: string, a: string, b: string, suffix: string)
    requires prefix + a + suffix == prefix + b + suffix
    ensures a == b
  {
    var n := |prefix|;
    var pa, pb := prefix + a + suffix, prefix + b + suffix;
    assert |a| == |b|;
    assert pa[n..n + |a|] == a && pb[n..n + |b|] == b;
  }

  /** Two products share a secret name exactly when they are equal, or one is the legacy
      product and the other is called `subscriber`. */
  lemma SecretNamesCollide(c: Config, p: string, q: string)
    ensures c.Name(p) == c.Name(q) <==> p == q || {p, q} == {TELEMETRY, SUBSCRIBER}
  {
    if c.Name(p) == c.Name(q) {
      PaddingCancels(c.Prefix(), if p == TELEMETRY then SUBSCRIBER else p,
                     if q == TELEMETRY then SUBSCRIBER else q, c.Suffix());
    }
    if {p, q} == {TELEMETRY, SUBSCRIBER} {
      assert p in {TELEMETRY, SUBSCRIBER} && q in {TELEMETRY, SUBSCRIBER};
      assert TELEMETRY in {p, q} && SUBSCRIBER in {p, q};
    }
  }

  // ---------------------------------------------------------------------------
  // The invariant
  // ---------------------------------------------------------------------------

  /** The secret for `p` carries the promoted account's real password and `sub`, and a
      subscription issued to that account for `p`. */
  ghost predicate Backed(c: Config, w: World, p: string)
    requires c.Name(p) in w.secrets
  {
    var secret := w.secrets[c.Name(p)];
    && secret.username == c.Username() && c.Username() in w.accounts
    && var account := w.accounts[c.Username()];
    && account.promoted
    && secret.password == account.password
    && secret.consumerId == account.sub
    && secret.productId == p
    && secret.subscriptionId.Some? && secret.subscriptionId.value in w.issued
    && w.issued[secret.subscriptionId.value] == Subscription(account.sub, p)
  }

  ghost predicate Sound(c: Config, w: World) {
    && w.revoked <= w.issued.Keys
    && (forall id :: id in w.issued ==> id < w.nextId && w.issued[id].productId != SUBSCRIBER)
    && (forall p :: p != SUBSCRIBER && c.Name(p) in w.secrets ==> Backed(c, w, p))
  }

  ghost predicate Recorded(c: Config, w: World, id: nat)
    requires id in w.issued
  {
    var name := c.Name(w.issued[id].productId);
    name in w.secrets && w.secrets[name].subscriptionId == Some(id)
  }

  /** Every subscription ever issued is revoked, lost in a crash, recorded in its product's
      secret, or still on its way there. */
  ghost predicate Accounted(c: Config, w: World, lost: map<nat, string>, unsaved: Option<nat>) {
    forall id :: id in w.issued ==> id in w.revoked || id in lost || unsaved == Some(id) || Recorded(c, w, id)
  }

  ghost predicate Kept(c: Config, s: State, lost: map<nat, string>) {
    && Sound(c, s.world)
    && Accounted(c, s.world, lost, s.unsaved)
    && (forall id :: id in lost ==> id in s.world.issued && lost[id] == s.world.issued[id].productId)
    && (s.unsaved.Some? ==> s.unsaved.value in s.world.issued && s.unsaved.value !in lost)
  }

  ghost predicate Quiet(c: Config, s: State, lost: map<nat, string>) {
    Kept(c, s, lost) && s.unsaved.None?
  }

  lemma ArriveKeeps(c: Config, s: State, lost: map<nat, string>)
    requires Kept(c, s, lost)
    ensures Kept(c, Arrive(s), lost)
  {
    forall id | id in s.world.issued ensures Recorded(c, s.world, id) ==> Recorded(c, Arrive(s).world, id) {}
    forall p | p != SUBSCRIBER && c.Name(p) in s.world.secrets ensures Backed(c, Arrive(s).world, p) {
      assert Backed(c, s.world, p);
    }
  }

  lemma CreateSubscriptionKeeps(c: Config, s: State, token: nat, p: string, lost: map<nat, string>)
    requires Quiet(c, s, lost) && p != SUBSCRIBER
    ensures var (t, r) := CreateSubscription(s, token, p);
            && Kept(c, t, lost) && (r.Raise? ==> t.unsaved.None?)
            && (r.Ok? ==> t.unsaved == Some(r.value) && t.world.issued[r.value] == Subscription(token, p))
  {
    ArriveKeeps(c, s, lost);
    var w := Arrive(s).world;
    var (t, r) := CreateSubscription(s, token, p);
    if r.Ok? {
      forall id | id in w.issued ensures id != r.value && (Recorded(c, w, id) ==> Recorded(c, t.world, id)) {}
      forall q | q != SUBSCRIBER && c.Name(q) in w.secrets ensures Backed(c, t.world, q) {
        assert Backed(c, w, q);
      }
    }
  }

  /** Putting a sound secret for the subscription on its way records that subscription; what it
      replaces must be revoked. */
  lemma PutSecretKeeps(c: Config, s: State, p: string, secret: Secret, lost: map<nat, string>)
    requires Kept(c, s, lost) && p != SUBSCRIBER
    requires s.unsaved.Some? && secret.subscriptionId == s.unsaved
    requires var w := s.world.(secrets := s.world.secrets[c.Name(p) := secret]); Backed(c, w, p)
    requires c.Name(p) in s.world.secrets ==> s.world.secrets[c.Name(p)].subscriptionId.value in s.world.revoked
    ensures var (t, r) := PutSecret(s, c.Name(p), secret);
            Kept(c, t, lost) && (r.Ok? ==> t.unsaved.None?)
  {
    ArriveKeeps(c, s, lost);
    var w := Arrive(s).world;
    var (t, r) := PutSecret(s, c.Name(p), secret);
    if r.Ok? {
      forall q | q != SUBSCRIBER && c.Name(q) in t.world.secrets ensures Backed(c, t.world, q) {
        SecretNamesCollide(c, p, q);
        if q != p { assert Backed(c, w, q); }
      }
      forall id | id in w.issued
        ensures id in t.world.revoked || id in lost || Recorded(c, t.world, id)
      {
        var q := w.issued[id].productId;
        SecretNamesCollide(c, p, q);
        if q != p { assert Recorded(c, w, id) ==> Recorded(c, t.world, id); }
      }
    }
  }

  lemma RecreateKeeps(c: Config, s: State, token: nat, p: string, lost: map<nat, string>)
    requires Quiet(c, s, lost) && p != SUBSCRIBER && c.Name(p) in s.world.secrets
    requires token == s.world.secrets[c.Name(p)].consumerId
    requires s.world.secrets[c.Name(p)].subscriptionId.value in s.world.revoked
    ensures var (t, r) := Recreate(s, token, c.Name(p), s.world.secrets[c.Name(p)], p);
            Kept(c, t, lost) && (r.Ok? ==> t.unsaved.None?)
  {
    var prior := s.world.secrets[c.Name(p)];
    CreateSubscriptionKeeps(c, s, token, p, lost);
    var (s1, created) := CreateSubscription(s, token, p);
    if created.Ok? {
      assert Backed(c, s.world, p) && Backed(c, s1.world, p);
      PutSecretKeeps(c, s1, p, prior.(subscriptionId := Some(created.value)), lost);
    }
  }

  lemma RefreshKeeps(c: Config, s: State, token: nat, p: string, lost: map<nat, string>)
    requires Quiet(c, s, lost) && p != SUBSCRIBER && c.Name(p) in s.world.secrets
    requires s.world.secrets[c.Name(p)].subscriptionId.Some? && token == s.world.secrets[c.Name(p)].consumerId
    ensures var (t, r) := Refresh(s, token, c.Name(p), s.world.secrets[c.Name(p)], p);
            && Kept(c, t, lost) && (r.Ok? ==> t.unsaved.None?) && t.world.accounts == s.world.accounts
  {
    ArriveKeeps(c, s, lost);
    var (s1, subs) := ListSubscriptions(s, token);
    if subs.Ok? && s.world.secrets[c.Name(p)].subscriptionId.value !in subs.value {
      UnlistedIsRevoked(c, s1, token, p, lost);
      RecreateKeeps(c, s1, token, p, lost);
    }
  }

  lemma UnlistedIsRevoked(c: Config, s: State, token: nat, p: string, lost: map<nat, string>)
    requires Quiet(c, s, lost) && p != SUBSCRIBER && c.Name(p) in s.world.secrets
    requires token == s.world.secrets[c.Name(p)].consumerId && s.world.secrets[c.Name(p)].subscriptionId.Some?
    requires var id := s.world.secrets[c.Name(p)].subscriptionId.value;
             !(id in s.world.issued && Live(s.world, id) && s.world.issued[id].consumerId == token)
    ensures s.world.secrets[c.Name(p)].subscriptionId.value in s.world.revoked
  {
    assert Backed(c, s.world, p);
  }

  /** What the account looks like while a run provisions products with this token and password. */
  ghost predicate SignedIn(c: Config, w: World, token: nat, password: string) {
    && c.Username() in w.accounts
    && var account := w.accounts[c.Username()];
    account.promoted && account.sub == token && account.password == password
  }

  lemma FirstSecretKeeps(c: Config, s: State, token: nat, password: string, p: string, lost: map<nat, string>)
    requires Quiet(c, s, lost) && p != SUBSCRIBER && SignedIn(c, s.world, token, password)
    requires c.Name(p) !in s.world.secrets
    ensures var (t, r) := FirstSecret(c, s, token, password, p);
            && Kept(c, t, lost)
            && (r.Ok? ==> t.unsaved.None?) && SignedIn(c, t.world, token, password)
  {
    CreateSubscriptionKeeps(c, s, token, p, lost);
    var (s1, created) := CreateSubscription(s, token, p);
    if created.Ok? {
      ArriveKeeps(c, s1, lost);
      var (s2, sub) := FindSubscriber(s1, c.Username());
      if sub.Ok? { FirstPutKeeps(c, s2, token, password, p, created.value, lost); }
    }
  }

  lemma FirstPutKeeps(c: Config, s: State, token: nat, password: string, p: string, id: nat, lost: map<nat, string>)
    requires Kept(c, s, lost) && p != SUBSCRIBER && SignedIn(c, s.world, token, password) && c.Name(p) !in s.world.secrets
    requires s.unsaved == Some(id) && s.world.issued[id] == Subscription(token, p)
    ensures var (t, r) := PutSecret(s, c.Name(p), Secret(c.Username(), password, token, Some(id), p));
            Kept(c, t, lost) && (r.Ok? ==> t.unsaved.None?) && SignedIn(c, t.world, token, password)
  {
    PutSecretKeeps(c, s, p, Secret(c.Username(), password, token, Some(id), p), lost);
  }

  lemma ProvisionProductKeeps(c: Config, s: State, token: nat, password: string, p: string, lost: map<nat, string>)
    requires Quiet(c, s, lost) && p != SUBSCRIBER && SignedIn(c, s.world, token, password)
    ensures var (t, r) := ProvisionProduct(c, s, token, password, p);
            && Kept(c, t, lost)
            && (r.Ok? ==> t.unsaved.None?) && SignedIn(c, t.world, token, password)
  {
    ArriveKeeps(c, s, lost);
    var (s1, found) := GetSecret(s, c.Name(p));
    if c.Name(p) in s1.world.secrets {
      assert Backed(c, s1.world, p);
      RefreshKeeps(c, s1, token, p, lost);
    } else if found.Ok? {
      FirstSecretKeeps(c, s1, token, password, p, lost);
    }
  }

  lemma {:induction false} ProvisionAllKeeps(c: Config, s: State, token: nat, password: string, products: seq<string>, lost: map<nat, string>)
    requires Quiet(c, s, lost) && SUBSCRIBER !in products && SignedIn(c, s.world, token, password)
    ensures var (t, r) := ProvisionAll(c, s, token, password, products);
            Kept(c, t, lost) && (r.Ok? ==> t.unsaved.None?)
    decreases |products|
  {
    if products != [] {
      ProvisionProductKeeps(c, s, token, password, products[0], lost);
      var (s1, first) := ProvisionProduct(c, s, token, password, products[0]);
      if first.Ok? { ProvisionAllKeeps(c, s1, token, password, products[1..], lost); }
    }
  }

  /** With no account there is no secret either, so opening one leaves the invariant alone. */
  lemma OpenAccountKeeps(c: Config, s: State, m: Minted, lost: map<nat, string>)
    requires Quiet(c, s, lost) && c.Username() !in s.world.accounts
    ensures var (t, r) := OpenAccount(c, s, m);
            && Quiet(c, t, lost)
            && (forall p :: p != SUBSCRIBER ==> c.Name(p) !in t.world.secrets)
            && (r.Ok? ==> SignedIn(c, t.world, r.value.0, r.value.1))
  {
    forall p | p != SUBSCRIBER ensures c.Name(p) !in s.world.secrets {}
    ArriveKeeps(c, s, lost);
    var (s1, made) := CreateSubscriber(c.live, s, c.Username(), m);
    assert Accounted(c, s1.world, lost, None) by {
      forall id | id in s1.world.issued ensures Recorded(c, Arrive(s).world, id) ==> Recorded(c, s1.world, id) {}
    }
    if made.Ok? {
      PromoteKeeps(c, s1, if made.value.1.Some? then made.value.1.value else m.proposal, lost);
    }
  }

  lemma PromoteKeeps(c: Config, s: State, password: Password, lost: map<nat, string>)
    requires Quiet(c, s, lost) && c.Username() in s.world.accounts && forall p :: p != SUBSCRIBER ==> c.Name(p) !in s.world.secrets
    ensures var (t, r) := Promote(c.live, s, c.Username(), password);
            && Quiet(c, t, lost) && t.world.secrets == s.world.secrets
            && (c.live && r.Ok? ==> SignedIn(c, t.world, s.world.accounts[c.Username()].sub, password))
            && (!c.live ==> t == s && r.Ok?)
  {
    ArriveKeeps(c, s, lost);
    var (t, _) := Promote(c.live, s, c.Username(), password);
    forall id | id in t.world.issued ensures Recorded(c, Arrive(s).world, id) ==> Recorded(c, t.world, id) {}
  }

  lemma EnrolKeeps(c: Config, s: State, sub: nat, password: Password, lost: map<nat, string>)
    requires Quiet(c, s, lost) && SignedIn(c, s.world, sub, password) && c.Name(TELEMETRY) !in s.world.secrets
    ensures var (t, r) := Enrol(c, s, sub, password); Kept(c, t, lost) && (r.Ok? ==> t.unsaved.None?)
  {
    ArriveKeeps(c, s, lost);
    var (s1, token) := SignIn(c.live, s, c.Username(), password);
    if token.Ok? {
      CreateSubscriptionKeeps(c, s1, token.value, TELEMETRY, lost);
      var (s2, created) := CreateSubscription(s1, token.value, TELEMETRY);
      if created.Ok? {
        PutSecretKeeps(c, s2, TELEMETRY, Secret(c.Username(), password, sub, Some(created.value), TELEMETRY), lost);
      }
    }
  }

  lemma FirstTimeKeeps(c: Config, s: State, m: Minted, lost: map<nat, string>)
    requires Quiet(c, s, lost)
    ensures var (t, r) := FirstTime(c, s, m); Kept(c, t, lost) && (r.Ok? ==> t.unsaved.None?)
  {
    ArriveKeeps(c, s, lost);
    var (s1, found) := FindSubscriber(s, c.Username());
    if found.Ok? && found.value.None? {
      OpenAccountKeeps(c, s1, m, lost);
      var (s2, entry) := OpenAccount(c, s1, m);
      if entry.Ok? { EnrolKeeps(c, s2, entry.value.0, entry.value.1, lost); }
    }
  }

  lemma RunKeeps(c: Config, s: State, m: Minted, lost: map<nat, string>)
    requires Quiet(c, s, lost)
    ensures var (t, r) := Run(c, s, m); Kept(c, t, lost) && (r.Ok? ==> t.unsaved.None?)
  {
    ArriveKeeps(c, s, lost);
    var (s1, found) := GetSecret(s, c.LegacyName());
    assert c.Name(TELEMETRY) == c.LegacyName();
    if found.Ok? {
      if found.value.Some? && found.value.value.subscriptionId.Some? {
        assert Backed(c, s1.world, TELEMETRY);
        var prior := found.value.value;
        ArriveKeeps(c, s1, lost);
        var (s2, token) := SignIn(c.live, s1, prior.username, prior.password);
        if token.Ok? { RefreshKeeps(c, s2, token.value, TELEMETRY, lost); }
      } else {
        FirstTimeKeeps(c, s1, m, lost);
      }
    }
  }

  ghost predicate IsRealName(c: Config, name: string) {
    exists p :: p != SUBSCRIBER && name == c.Name(p)
  }

  /** The names a multi-product run looks for a password under are those of real products. */
  lemma {:induction false} RecoverKeeps(c: Config, s: State, names: seq<string>, lost: map<nat, string>)
    requires Quiet(c, s, lost)
    requires forall n :: n in names ==> IsRealName(c, n)
    ensures var (t, r) := Recover(s, names);
            && Quiet(c, t, lost) && t.world.accounts == s.world.accounts
            && t.world.secrets == s.world.secrets && t.world.issued == s.world.issued
            && (r.Ok? && r.value.Some? ==>
                  && c.Username() in t.world.accounts
                  && SignedIn(c, t.world, t.world.accounts[c.Username()].sub, r.value.value))
            && (r.Ok? && r.value.None? ==> forall n :: n in names ==> n !in t.world.secrets)
    decreases |names|
  {
    if names != [] {
      ArriveKeeps(c, s, lost);
      var (s1, found) := GetSecret(s, names[0]);
      assert names[0] in names;
      var p :| p != SUBSCRIBER && names[0] == c.Name(p);
      if names[0] in s1.world.secrets { assert Backed(c, s1.world, p); }
      if found.Ok? && found.value.None? { RecoverKeeps(c, s1, names[1..], lost); }
    }
  }

  lemma RealNames(c: Config, products: seq<string>)
    requires SUBSCRIBER !in products
    ensures forall n :: n in Names(c, products) + [c.LegacyName()] ==> IsRealName(c, n)
  {
    assert c.LegacyName() == c.Name(TELEMETRY);
    forall n | n in Names(c, products) ensures IsRealName(c, n) {
      var i :| 0 <= i < |products| && n == c.Name(products[i]);
      assert products[i] in products;
    }
  }

  lemma EnterKeeps(c: Config, s: State, password: Password, products: seq<string>, lost: map<nat, string>)
    requires Quiet(c, s, lost) && SUBSCRIBER !in products && c.Username() in s.world.accounts
    requires SignedIn(c, s.world, s.world.accounts[c.Username()].sub, password)
    ensures var (t, r) := Enter(c, s, password, products); Kept(c, t, lost) && (r.Ok? ==> t.unsaved.None?)
  {
    ArriveKeeps(c, s, lost);
    var (s1, token) := SignIn(c.live, s, c.Username(), password);
    if token.Ok? { ProvisionAllKeeps(c, s1, token.value, password, products, lost); }
  }

  lemma RunMultiKeeps(c: Config, s: State, products: seq<string>, m: Minted, lost: map<nat, string>)
    requires Quiet(c, s, lost) && SUBSCRIBER !in products
    ensures var (t, r) := RunMulti(c, s, products, m); Kept(c, t, lost) && (r.Ok? ==> t.unsaved.None?)
  {
    if products != [] {
      RealNames(c, products);
      var names := Names(c, products) + [c.LegacyName()];
      RecoverKeeps(c, s, names, lost);
      var (s1, recovered) := Recover(s, names);
      if recovered.Ok? {
        ArriveKeeps(c, s1, lost);
        var (s2, found) := FindSubscriber(s1, c.Username());
        if found.Ok? && found.value.Some? && recovered.value.Some? {
          EnterKeeps(c, s2, recovered.value.value, products, lost);
        } else if found.Ok? && found.value.None? {
          OpenAccountKeeps(c, s2, m, lost);
          var (s3, entry) := OpenAccount(c, s2, m);
          if entry.Ok? { EnterKeeps(c, s3, entry.value.1, products, lost); }
        }
      }
    }
  }
}
