/** The two stores behind the subscriber provisioner, and what each of its entry points
    does to them, as functions on values.

    Every store call is a separate atomic step.  Before each of them the environment takes a
    `Turn`: it may revoke any subscriptions, and it may end the run (a crash, a timeout, an
    error answer).  A script that is used up means no more interference. */
module SubscriberModel {
  import opened Prelude

  type Password = s: string | s != "" witness "x"

  datatype Account = Account(sub: nat, password: Password, promoted: bool)
  datatype Subscription = Subscription(consumerId: nat, productId: string)
  datatype Secret = Secret(username: string, password: string, consumerId: nat,
                           subscriptionId: Option<nat>, productId: string)

  /** `issued` remembers every subscription ever created; `revoked` those that are gone. */
  datatype World = World(accounts: map<string, Account>, issued: map<nat, Subscription>,
                         revoked: set<nat>, secrets: map<string, Secret>,
                         nextSub: nat, nextId: nat)

  datatype Turn = Turn(revoke: set<nat>, up: bool)

  /** `unsaved` is the subscription this run created and has not yet put into a secret. */
  datatype State = State(world: World, turns: seq<Turn>, unsaved: Option<nat>)

  /** What the account's creation brings in from outside: the generated proposal, and the
      password the producer chose and returned, if it did. */
  datatype Minted = Minted(proposal: Password, chosen: Option<Password>)

  datatype Action = Noop | Recreated | Created
  datatype Summary = Summary(action: Action, productId: string, subscriptionId: nat, secretName: string)

  const TELEMETRY := "telemetry-hifi-v1"
  const SUBSCRIBER := "subscriber"

  /** `live` is false in a dry run: no promoter, and the mock accepts any password. */
  datatype Config = Config(stage: string, region: string, account: string, live: bool) {
    function Prefix(): string { "cms-" + stage + "-connected-services-" }
    function Suffix(): string { "-" + region + "-" + account }
    function Username(): string { "cms-" + stage + "-subscriber@example.com" }
    function LegacyName(): string { Prefix() + SUBSCRIBER + Suffix() }
    function Name(productId: string): string {
      if productId == TELEMETRY then LegacyName() else Prefix() + productId + Suffix()
    }
  }

  // ---------------------------------------------------------------------------
  // One step of the environment, then one store call
  // ---------------------------------------------------------------------------

  predicate Up(s: State) { s.turns == [] || s.turns[0].up }

  function Revoke(w: World, ids: set<nat>): World {
    w.(revoked := w.revoked + (ids * w.issued.Keys))
  }

  function Arrive(s: State): State {
    if s.turns == [] then s
    else s.(world := Revoke(s.world, s.turns[0].revoke), turns := s.turns[1..])
  }

  function GetSecret(s: State, name: string): (State, Reply<Option<Secret>>) {
    var t := Arrive(s);
    (t, if !Up(s) then Raise
        else if name in t.world.secrets then Ok(Some(t.world.secrets[name])) else Ok(None))
  }

  function PutSecret(s: State, name: string, value: Secret): (State, Reply<()>) {
    var t := Arrive(s);
    if !Up(s) then (t, Raise)
    else (State(t.world.(secrets := t.world.secrets[name := value]), t.turns, None), Ok(()))
  }

  function FindSubscriber(s: State, username: string): (State, Reply<Option<nat>>) {
    var t := Arrive(s);
    (t, if !Up(s) then Raise
        else if username in t.world.accounts then Ok(Some(t.world.accounts[username].sub)) else Ok(None))
  }

  /** Answers the new `sub` and, when the producer chose the password itself, that password. */
  function CreateSubscriber(live: bool, s: State, username: string, m: Minted): (State, Reply<(nat, Option<Password>)>) {
    var t := Arrive(s);
    if !Up(s) || username in t.world.accounts then (t, Raise)
    else
      var password := if m.chosen.Some? then m.chosen.value else m.proposal;
      var account := Account(t.world.nextSub, password, !live);
      (t.(world := t.world.(accounts := t.world.accounts[username := account], nextSub := t.world.nextSub + 1)),
       Ok((account.sub, m.chosen)))
  }

  /** Clears FORCE_CHANGE_PASSWORD by setting the given password; no call at all in a dry run. */
  function Promote(live: bool, s: State, username: string, password: Password): (State, Reply<()>) {
    if !live then (s, Ok(()))
    else
      var t := Arrive(s);
      if !Up(s) || username !in t.world.accounts then (t, Raise)
      else
        var account := t.world.accounts[username].(password := password, promoted := true);
        (t.(world := t.world.(accounts := t.world.accounts[username := account])), Ok(()))
  }

  /** The token is the signed-in account's `sub`. */
  function SignIn(live: bool, s: State, username: string, password: string): (State, Reply<nat>) {
    var t := Arrive(s);
    if !Up(s) || username !in t.world.accounts then (t, Raise)
    else
      var account := t.world.accounts[username];
      (t, if live && (account.password != password || !account.promoted) then Raise else Ok(account.sub))
  }

  predicate Live(w: World, id: nat) { id in w.issued && id !in w.revoked }

  function ListSubscriptions(s: State, token: nat): (State, Reply<set<nat>>) {
    var t := Arrive(s);
    (t, if !Up(s) then Raise
        else Ok(set id | id in t.world.issued && Live(t.world, id) && t.world.issued[id].consumerId == token))
  }

  function CreateSubscription(s: State, token: nat, productId: string): (State, Reply<nat>) {
    var t := Arrive(s);
    if !Up(s) then (t, Raise)
    else
      var id := t.world.nextId;
      (State(t.world.(issued := t.world.issued[id := Subscription(token, productId)], nextId := id + 1),
             t.turns, Some(id)),
       Ok(id))
  }

  // ---------------------------------------------------------------------------
  // The entry points
  // ---------------------------------------------------------------------------

  /** Create a subscription and record it in a secret that already exists. */
  function Recreate(s: State, token: nat, name: string, prior: Secret, productId: string): (State, Reply<Summary>) {
    var (s1, created) := CreateSubscription(s, token, productId);
    if created.Raise? then (s1, Raise)
    else
      var (s2, saved) := PutSecret(s1, name, prior.(subscriptionId := Some(created.value)));
      (s2, if saved.Raise? then Raise else Ok(Summary(Recreated, productId, created.value, name)))
  }

  /** A secret names a subscription: nothing to do while it is live, else a new one. */
  function Refresh(s: State, token: nat, name: string, prior: Secret, productId: string): (State, Reply<Summary>)
    requires prior.subscriptionId.Some?
  {
    var (s1, subs) := ListSubscriptions(s, token);
    if subs.Raise? then (s1, Raise)
    else if prior.subscriptionId.value in subs.value then
      (s1, Ok(Summary(Noop, productId, prior.subscriptionId.value, name)))
    else Recreate(s1, token, name, prior, productId)
  }

  /** `run`, step 1: sign in with what the secret says. */
  function Confirm(c: Config, s: State, prior: Secret): (State, Reply<Summary>)
    requires prior.subscriptionId.Some?
  {
    var (s1, token) := SignIn(c.live, s, prior.username, prior.password);
    if token.Raise? then (s1, Raise) else Refresh(s1, token.value, c.LegacyName(), prior, TELEMETRY)
  }

  /** Create the account and promote the password it really has; answers `sub` and password. */
  function OpenAccount(c: Config, s: State, m: Minted): (State, Reply<(nat, Password)>) {
    var (s1, made) := CreateSubscriber(c.live, s, c.Username(), m);
    if made.Raise? then (s1, Raise)
    else
      var password := if made.value.1.Some? then made.value.1.value else m.proposal;
      var (s2, done) := Promote(c.live, s1, c.Username(), password);
      (s2, if done.Raise? then Raise else Ok((made.value.0, password)))
  }

  /** Sign the new account in, subscribe it and store its first secret. */
  function Enrol(c: Config, s: State, sub: nat, password: Password): (State, Reply<Summary>) {
    var (s1, token) := SignIn(c.live, s, c.Username(), password);
    if token.Raise? then (s1, Raise)
    else
      var (s2, created) := CreateSubscription(s1, token.value, TELEMETRY);
      if created.Raise? then (s2, Raise)
      else
        var (s3, saved) := PutSecret(s2, c.LegacyName(), Secret(c.Username(), password, sub, Some(created.value), TELEMETRY));
        (s3, if saved.Raise? then Raise else Ok(Summary(Created, TELEMETRY, created.value, c.LegacyName())))
  }

  /** `run`, steps 2 and 3: no usable secret. */
  function FirstTime(c: Config, s: State, m: Minted): (State, Reply<Summary>) {
    var (s1, found) := FindSubscriber(s, c.Username());
    if found.Raise? || found.value.Some? then (s1, Raise)
    else
      var (s2, entry) := OpenAccount(c, s1, m);
      if entry.Raise? then (s2, Raise) else Enrol(c, s2, entry.value.0, entry.value.1)
  }

  function Run(c: Config, s: State, m: Minted): (State, Reply<Summary>) {
    var (s1, found) := GetSecret(s, c.LegacyName());
    if found.Raise? then (s1, Raise)
    else if found.value.Some? && found.value.value.subscriptionId.Some? then Confirm(c, s1, found.value.value)
    else FirstTime(c, s1, m)
  }

  /** Create a subscription and the product's first secret. */
  function FirstSecret(c: Config, s: State, token: nat, password: string, productId: string): (State, Reply<Summary>) {
    var (s1, created) := CreateSubscription(s, token, productId);
    if created.Raise? then (s1, Raise)
    else
      var (s2, sub) := FindSubscriber(s1, c.Username());
      if sub.Raise? || sub.value.None? then (s2, Raise)
      else
        var secret := Secret(c.Username(), password, sub.value.value, Some(created.value), productId);
        var (s3, saved) := PutSecret(s2, c.Name(productId), secret);
        (s3, if saved.Raise? then Raise else Ok(Summary(Created, productId, created.value, c.Name(productId))))
  }

  function ProvisionProduct(c: Config, s: State, token: nat, password: string, productId: string): (State, Reply<Summary>) {
    var (s1, found) := GetSecret(s, c.Name(productId));
    if found.Raise? then (s1, Raise)
    else if found.value.Some? && found.value.value.subscriptionId.Some? then
      Refresh(s1, token, c.Name(productId), found.value.value, productId)
    else FirstSecret(c, s1, token, password, productId)
  }

  /** The first non-empty password among the secrets of these names. */
  function Recover(s: State, names: seq<string>): (State, Reply<Option<Password>>)
    decreases |names|
  {
    if names == [] then (s, Ok(None))
    else
      var (s1, found) := GetSecret(s, names[0]);
      if found.Raise? then (s1, Raise)
      else if found.value.Some? && found.value.value.password != "" then (s1, Ok(Some(found.value.value.password)))
      else Recover(s1, names[1..])
  }

  function Names(c: Config, products: seq<string>): (names: seq<string>)
    ensures |names| == |products| && forall i :: 0 <= i < |products| ==> names[i] == c.Name(products[i])
  {
    seq(|products|, i requires 0 <= i < |products| => c.Name(products[i]))
  }

  function ProvisionAll(c: Config, s: State, token: nat, password: string, products: seq<string>): (State, Reply<seq<Summary>>)
    decreases |products|
  {
    if products == [] then (s, Ok([]))
    else
      var (s1, first) := ProvisionProduct(c, s, token, password, products[0]);
      if first.Raise? then (s1, Raise)
      else
        var (s2, rest) := ProvisionAll(c, s1, token, password, products[1..]);
        (s2, if rest.Raise? then Raise else Ok([first.value] + rest.value))
  }

  /** Sign in with the resolved password, then every product in turn. */
  function Enter(c: Config, s: State, password: Password, products: seq<string>): (State, Reply<seq<Summary>>) {
    var (s1, token) := SignIn(c.live, s, c.Username(), password);
    if token.Raise? then (s1, Raise) else ProvisionAll(c, s1, token.value, password, products)
  }

  function RunMulti(c: Config, s: State, products: seq<string>, m: Minted): (State, Reply<seq<Summary>>) {
    if products == [] then (s, Raise)
    else
      var (s1, recovered) := Recover(s, Names(c, products) + [c.LegacyName()]);
      if recovered.Raise? then (s1, Raise)
      else
        var (s2, found) := FindSubscriber(s1, c.Username());
        if found.Raise? || (found.value.Some? && recovered.value.None?) then (s2, Raise)
        else if found.value.Some? then Enter(c, s2, recovered.value.value, products)
        else
          var (s3, entry) := OpenAccount(c, s2, m);
          if entry.Raise? then (s3, Raise) else Enter(c, s3, entry.value.1, products)
  }

  // ---------------------------------------------------------------------------
  // Histories
  // ---------------------------------------------------------------------------

  datatype Event =
    | RunOnce(turns: seq<Turn>, minted: Minted)
    | RunMany(products: seq<string>, turns: seq<Turn>, minted: Minted)
    | Revocations(ids: set<nat>)

  /** `lost` collects the subscriptions whose run ended between creating and recording them,
      with their products. */
  datatype History = History(world: World, lost: map<nat, string>)

  /** The world an event leaves, what a run in it answers, and any unrecorded subscription. */
  function Outcome(c: Config, w: World, e: Event): (World, Reply<seq<Summary>>, Option<nat>) {
    match e
    case RunOnce(turns, minted) =>
      var (s, r) := Run(c, State(w, turns, None), minted);
      (s.world, if r.Raise? then Raise else Ok([r.value]), s.unsaved)
    case RunMany(products, turns, minted) =>
      var (s, r) := RunMulti(c, State(w, turns, None), products, minted); (s.world, r, s.unsaved)
    case Revocations(ids) => (Revoke(w, ids), Ok([]), None)
  }

  /** True when the event is a run that created a subscription for `p` and ended unrecorded. */
  predicate EndsInGap(c: Config, w: World, e: Event, p: string) {
    var (w1, _, unsaved) := Outcome(c, w, e);
    unsaved.Some? && unsaved.value in w1.issued && w1.issued[unsaved.value].productId == p
  }

  function After(c: Config, h: History, e: Event): History {
    var (w, _, unsaved) := Outcome(c, h.world, e);
    History(w, if unsaved.Some? && unsaved.value in w.issued
               then h.lost[unsaved.value := w.issued[unsaved.value].productId] else h.lost)
  }

  function Replay(c: Config, h: History, es: seq<Event>): History
    decreases |es|
  {
    if es == [] then h else Replay(c, After(c, h, es[0]), es[1..])
  }

  /** The runs of a history that ended in the gap for `p`. */
  function GapCrashes(c: Config, h: History, es: seq<Event>, p: string): nat
    decreases |es|
  {
    if es == [] then 0
    else (if EndsInGap(c, h.world, es[0], p) then 1 else 0) + GapCrashes(c, After(c, h, es[0]), es[1..], p)
  }

  const EMPTY := History(World(map[], map[], {}, map[], 0, 0), map[])

  function IssuedFor(w: World, p: string): set<nat> { set id | id in w.issued && w.issued[id].productId == p }

  function RevokedFor(w: World, p: string): set<nat> { set id | id in IssuedFor(w, p) && id in w.revoked }
}
