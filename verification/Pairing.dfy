/**
 Pairing phones with the desktop: offers, claims, logins, revocation. Each step
 is what one caller does while it holds the state lock. Secrets are drawn from a
 counter, so a new one differs from every earlier one; clients may present any.
 */
module Pairing {
  import opened Prelude

  type Secret = nat
  type Hash = nat
  type Token = nat
  type Time = nat

  datatype Device = Device(id: Secret, hash: Hash)
  datatype Pending = Pending(hash: Hash, expires: Time)

  /** A connection that `authorize` let in, with the cancel token it was given. */
  datatype Connection = Connection(device: Secret, token: Token)

  /** A claim that succeeded, and when its code was checked. */
  datatype Claim = Claim(hash: Hash, at: Time)

  datatype Server = Server(
    stored: seq<Device>,
    disk: seq<Device>,
    pending: Option<Pending>,
    listening: bool,
    active: map<Secret, Token>,
    cancelled: set<Token>,
    nextSecret: Secret,
    nextToken: Token,
    now: Time,
    // What happened so far.
    offers: seq<Pending>,
    claims: seq<Claim>,
    connections: seq<Connection>)

  const LIMIT := 32
  const OFFER_SECONDS := 120

  datatype Action =
    | Bind
    | Stop
    | Offer
    | OfferTimer(hash: Hash)
    | Revoke(id: Secret, saved: bool)
    | ClaimCode(code: Secret, session: bool, saved: bool)
    | Login(credential: Secret)
    | Wait(seconds: nat)

  function Retain(devices: seq<Device>, id: Secret): (r: seq<Device>)
  {
    if devices == [] then []
    else if devices[0].id == id then Retain(devices[1..], id)
    else [devices[0]] + Retain(devices[1..], id)
  }

  function Find(devices: seq<Device>, hash: Hash): (d: Option<Device>)
  {
    if devices == [] then None else if devices[0].hash == hash then Some(devices[0]) else Find(devices[1..], hash)
  }

  function Stopped(s: Server): Server {
    s.(listening := false, active := map[], cancelled := s.cancelled + s.active.Values, pending := None)
  }

  function MakeOffer(s: Server, h: Secret -> Hash): Server {
    if !s.listening || |s.stored| >= LIMIT then s
    else
      var p := Pending(h(s.nextSecret), s.now + OFFER_SECONDS);
      s.(pending := Some(p), nextSecret := s.nextSecret + 1, offers := s.offers + [p])
  }

  function Expire(s: Server, hash: Hash): Server {
    if s.pending.Some? && s.pending.value.hash == hash then s.(pending := None) else s
  }

  /** `save` replaces the file atomically or fails; memory follows only a success. */
  function RevokeDevice(s: Server, id: Secret, saved: bool): Server {
    if !saved then s
    else
      var next := Retain(s.stored, id);
      s.(disk := next, stored := next, active := s.active - {id},
         cancelled := if id in s.active then s.cancelled + {s.active[id]} else s.cancelled)
  }

  /** `devices.entry(id).or_insert_with(..)`, and the connection it serves. */
  function Admit(s: Server, id: Secret): Server {
    if id in s.active then s.(connections := s.connections + [Connection(id, s.active[id])])
    else
      s.(active := s.active[id := s.nextToken], nextToken := s.nextToken + 1,
         connections := s.connections + [Connection(id, s.nextToken)])
  }

  predicate Claimable(s: Server, h: Secret -> Hash, code: Secret) {
    s.pending.Some? && s.pending.value.expires > s.now && s.pending.value.hash == h(code) && |s.stored| < LIMIT
  }

  /** The new device: its credential is the next secret, its id the one after. */
  function NewDevice(s: Server, h: Secret -> Hash): Device {
    Device(s.nextSecret + 1, h(s.nextSecret))
  }

  function ClaimDevice(s: Server, h: Secret -> Hash, code: Secret, session: bool, saved: bool): Server {
    if !Claimable(s, h, code) || !session then s
    else
      var s1 := s.(nextSecret := s.nextSecret + 2);
      if !saved then s1
      else
        var next := s.stored + [NewDevice(s, h)];
        Admit(s1.(disk := next, stored := next, pending := None, claims := s.claims + [Claim(h(code), s.now)]),
              s.nextSecret + 1)
  }

  function LoginDevice(s: Server, h: Secret -> Hash, credential: Secret): Server {
    var d := Find(s.stored, h(credential));
    if d.None? then s else Admit(s, d.value.id)
  }

  function Next(s: Server, h: Secret -> Hash, a: Action): Server {
    match a
    case Bind => s.(listening := true)
    case Stop => Stopped(s)
    case Offer => MakeOffer(s, h)
    case OfferTimer(hash) => Expire(s, hash)
    case Revoke(id, saved) => RevokeDevice(s, id, saved)
    case ClaimCode(code, session, saved) => ClaimDevice(s, h, code, session, saved)
    case Login(credential) => LoginDevice(s, h, credential)
    case Wait(seconds) => s.(now := s.now + seconds)
  }

  function Run(s: Server, h: Secret -> Hash, actions: seq<Action>): Server {
    if actions == [] then s else Next(Run(s, h, actions[..|actions| - 1]), h, actions[|actions| - 1])
  }

  /** What `load` leaves: the file's devices in memory and, saved again, on disk. */
  function Loaded(devices: seq<Device>, nextSecret: Secret): Server {
    Server(devices, devices, None, false, map[], {}, nextSecret, 0, 0, [], [], [])
  }

  // ---- Invariant ----

  ghost predicate Injective(h: Secret -> Hash) {
    forall x, y :: h(x) == h(y) ==> x == y
  }

  /** Nothing known yet is, or is the hash of, a secret still to be drawn. */
  ghost predicate NotDrawn(hash: Hash, h: Secret -> Hash, nextSecret: Secret) {
    forall x :: x >= nextSecret ==> h(x) != hash
  }

  ghost predicate DevicesOk(devices: seq<Device>, h: Secret -> Hash, nextSecret: Secret) {
    && (forall d <- devices :: d.id < nextSecret && NotDrawn(d.hash, h, nextSecret))
    && (forall i, j :: 0 <= i < j < |devices| ==> devices[i].id != devices[j].id && devices[i].hash != devices[j].hash)
  }

  ghost predicate OffersOk(offers: seq<Pending>, pending: Option<Pending>, claims: seq<Claim>, h: Secret -> Hash,
      nextSecret: Secret) {
    && (forall p <- offers :: NotDrawn(p.hash, h, nextSecret))
    && (forall i, j :: 0 <= i < j < |offers| ==> offers[i].hash != offers[j].hash)
    && (pending.Some? ==> offers != [] && offers[|offers| - 1] == pending.value)
    && (pending.Some? ==> forall c <- claims :: c.hash != pending.value.hash)
    && (forall i, j :: 0 <= i < j < |claims| ==> claims[i].hash != claims[j].hash)
    && (forall c <- claims :: exists p <- offers :: p.hash == c.hash && c.at < p.expires)
  }

  ghost predicate Stores(devices: seq<Device>, id: Secret) {
    exists d <- devices :: d.id == id
  }

  ghost predicate ActiveOk(active: map<Secret, Token>, cancelled: set<Token>, nextToken: Token, stored: seq<Device>) {
    && (forall id <- active :: Stores(stored, id) && active[id] < nextToken && active[id] !in cancelled)
    && (forall t <- cancelled :: t < nextToken)
    && (forall a, b :: a in active && b in active && a != b ==> active[a] != active[b])
  }

  ghost predicate ConnectionsOk(connections: seq<Connection>, active: map<Secret, Token>, cancelled: set<Token>,
      nextToken: Token) {
    && (forall c <- connections :: c.token < nextToken)
    && (forall c <- connections :: c.token !in cancelled ==> c.device in active && active[c.device] == c.token)
  }

  ghost predicate Inv(s: Server, h: Secret -> Hash) {
    && s.disk == s.stored && |s.stored| <= LIMIT
    && DevicesOk(s.stored, h, s.nextSecret)
    && OffersOk(s.offers, s.pending, s.claims, h, s.nextSecret)
    && ActiveOk(s.active, s.cancelled, s.nextToken, s.stored)
    && ConnectionsOk(s.connections, s.active, s.cancelled, s.nextToken)
  }

  lemma {:induction false} RetainKeeps(devices: seq<Device>, id: Secret)
    ensures |Retain(devices, id)| <= |devices|
    ensures forall d :: d in Retain(devices, id) <==> d in devices && d.id != id
    ensures (forall i, j :: 0 <= i < j < |devices| ==>
           devices[i].id != devices[j].id && devices[i].hash != devices[j].hash)
      ==> (forall i, j :: 0 <= i < j < |Retain(devices, id)| ==>
           Retain(devices, id)[i].id != Retain(devices, id)[j].id
             && Retain(devices, id)[i].hash != Retain(devices, id)[j].hash)
  {
    if devices != [] {
      var rest := devices[1..];
      assert forall i :: 0 <= i < |rest| ==> rest[i] == devices[i + 1];
      RetainKeeps(rest, id);
    }
  }

  lemma {:induction false} FindFinds(devices: seq<Device>, hash: Hash)
    ensures var d := Find(devices, hash);
      && (d.Some? ==> d.value in devices && d.value.hash == hash)
      && (d.None? ==> forall e <- devices :: e.hash != hash)
  {
    if devices != [] {
      FindFinds(devices[1..], hash);
    }
  }

  lemma DrawnLater(devices: seq<Device>, offers: seq<Pending>, pending: Option<Pending>, claims: seq<Claim>,
    h: Secret -> Hash, before: Secret, after: Secret)
    requires before <= after
    ensures DevicesOk(devices, h, before) ==> DevicesOk(devices, h, after)
    ensures OffersOk(offers, pending, claims, h, before) ==> OffersOk(offers, pending, claims, h, after)
  {
  }

  lemma NoPending(offers: seq<Pending>, pending: Option<Pending>, claims: seq<Claim>, h: Secret -> Hash, next: Secret)
    requires OffersOk(offers, pending, claims, h, next)
    ensures OffersOk(offers, None, claims, h, next)
  {
  }

  lemma StopKeeps(s: Server, h: Secret -> Hash)
    requires Inv(s, h)
    ensures Inv(Stopped(s), h)
  {
    NoPending(s.offers, s.pending, s.claims, h, s.nextSecret);
    hide DevicesOk, OffersOk, Stores;
    assert forall t <- s.active.Values :: exists id <- s.active :: s.active[id] == t;
  }

  lemma OfferKeeps(s: Server, h: Secret -> Hash)
    requires Inv(s, h) && Injective(h)
    ensures Inv(MakeOffer(s, h), h)
  {
    if s.listening && |s.stored| < LIMIT {
      var p := Pending(h(s.nextSecret), s.now + OFFER_SECONDS);
      DrawnLater(s.stored, s.offers, s.pending, s.claims, h, s.nextSecret, s.nextSecret + 1);
      OfferAdded(s, h, p);
      hide DevicesOk, OffersOk, ActiveOk, ConnectionsOk, Injective;
    }
  }

  lemma OfferAdded(s: Server, h: Secret -> Hash, p: Pending)
    requires OffersOk(s.offers, s.pending, s.claims, h, s.nextSecret) && Injective(h)
    requires p.hash == h(s.nextSecret)
    ensures OffersOk(s.offers + [p], Some(p), s.claims, h, s.nextSecret + 1)
  {
    var offers := s.offers + [p];
    forall c <- s.claims ensures (exists q <- offers :: q.hash == c.hash && c.at < q.expires) && c.hash != p.hash {
      var q :| q in s.offers && q.hash == c.hash && c.at < q.expires;
      assert q in offers;
      assert NotDrawn(q.hash, h, s.nextSecret);
    }
    forall i, j | 0 <= i < j < |offers| ensures offers[i].hash != offers[j].hash {
      assert offers[i] in s.offers && NotDrawn(offers[i].hash, h, s.nextSecret);
    }
  }

  lemma RevokeKeeps(s: Server, h: Secret -> Hash, id: Secret, saved: bool)
    requires Inv(s, h)
    ensures Inv(RevokeDevice(s, id, saved), h)
  {
    if saved {
      var t := RevokeDevice(s, id, saved);
      RetainKeeps(s.stored, id);
      assert DevicesOk(t.stored, h, s.nextSecret);
      RevokedActive(s, id);
      hide DevicesOk, OffersOk, Retain, ActiveOk, ConnectionsOk, Stores;
    }
  }

  lemma RevokedActive(s: Server, id: Secret)
    requires ActiveOk(s.active, s.cancelled, s.nextToken, s.stored)
    requires ConnectionsOk(s.connections, s.active, s.cancelled, s.nextToken)
    ensures var t := RevokeDevice(s, id, true);
      ActiveOk(t.active, t.cancelled, t.nextToken, t.stored)
        && ConnectionsOk(t.connections, t.active, t.cancelled, t.nextToken)
  {
    RetainKeeps(s.stored, id);
    var t := RevokeDevice(s, id, true);
    forall x <- t.active ensures Stores(t.stored, x) {
      assert Stores(s.stored, x);
      var d :| d in s.stored && d.id == x;
      assert d in t.stored;
    }
  }

  lemma AdmitKeeps(s: Server, id: Secret)
    requires ActiveOk(s.active, s.cancelled, s.nextToken, s.stored) && Stores(s.stored, id)
    requires ConnectionsOk(s.connections, s.active, s.cancelled, s.nextToken)
    ensures var t := Admit(s, id);
      ActiveOk(t.active, t.cancelled, t.nextToken, t.stored)
        && ConnectionsOk(t.connections, t.active, t.cancelled, t.nextToken)
  {
    hide Stores;
  }

  lemma MoreStored(s: Server, more: seq<Device>)
    requires ActiveOk(s.active, s.cancelled, s.nextToken, s.stored)
    ensures ActiveOk(s.active, s.cancelled, s.nextToken, s.stored + more)
  {
    forall id <- s.active ensures Stores(s.stored + more, id) {
      assert Stores(s.stored, id);
      var d :| d in s.stored && d.id == id;
      assert d in s.stored + more;
    }
  }

  lemma DeviceAdded(s: Server, h: Secret -> Hash)
    requires DevicesOk(s.stored, h, s.nextSecret) && Injective(h)
    ensures DevicesOk(s.stored + [NewDevice(s, h)], h, s.nextSecret + 2)
    ensures Stores(s.stored + [NewDevice(s, h)], s.nextSecret + 1)
  {
    var d := NewDevice(s, h);
    var devices := s.stored + [d];
    assert d in devices;
    assert NotDrawn(d.hash, h, s.nextSecret + 2);
    forall i, j | 0 <= i < j < |devices| ensures devices[i].id != devices[j].id && devices[i].hash != devices[j].hash {
      assert devices[i] in s.stored && NotDrawn(devices[i].hash, h, s.nextSecret);
    }
  }

  lemma ClaimAdded(s: Server, h: Secret -> Hash, code: Secret)
    requires OffersOk(s.offers, s.pending, s.claims, h, s.nextSecret) && Claimable(s, h, code)
    ensures OffersOk(s.offers, None, s.claims + [Claim(h(code), s.now)], h, s.nextSecret + 2)
  {
    var claims := s.claims + [Claim(h(code), s.now)];
    assert s.pending.value in s.offers;
    forall c <- claims ensures exists p <- s.offers :: p.hash == c.hash && c.at < p.expires {
      if c in s.claims {
        var p :| p in s.offers && p.hash == c.hash && c.at < p.expires;
      }
    }
  }

  lemma ClaimKeeps(s: Server, h: Secret -> Hash, code: Secret, session: bool, saved: bool)
    requires Inv(s, h) && Injective(h)
    ensures Inv(ClaimDevice(s, h, code, session, saved), h)
  {
    if Claimable(s, h, code) && session {
      DrawnLater(s.stored, s.offers, s.pending, s.claims, h, s.nextSecret, s.nextSecret + 2);
      if saved {
        DeviceAdded(s, h);
        ClaimAdded(s, h, code);
        MoreStored(s, [NewDevice(s, h)]);
        hide DevicesOk, OffersOk, ActiveOk, ConnectionsOk, Stores, Injective, NewDevice;
        AdmitKeeps(s.(nextSecret := s.nextSecret + 2,
          disk := s.stored + [NewDevice(s, h)], stored := s.stored + [NewDevice(s, h)],
          pending := None, claims := s.claims + [Claim(h(code), s.now)]), s.nextSecret + 1);
      }
    }
  }

  lemma LoginKeeps(s: Server, h: Secret -> Hash, credential: Secret)
    requires Inv(s, h)
    ensures Inv(LoginDevice(s, h, credential), h)
  {
    var d := Find(s.stored, h(credential));
    FindFinds(s.stored, h(credential));
    if d.Some? {
      assert Stores(s.stored, d.value.id);
      hide DevicesOk, OffersOk, ActiveOk, ConnectionsOk, Stores;
      AdmitKeeps(s, d.value.id);
    }
  }

  lemma NextKeeps(s: Server, h: Secret -> Hash, a: Action)
    requires Inv(s, h) && Injective(h)
    ensures Inv(Next(s, h, a), h)
  {
    match a
    case Stop => StopKeeps(s, h);
    case Offer => OfferKeeps(s, h);
    case OfferTimer(_) => NoPending(s.offers, s.pending, s.claims, h, s.nextSecret);
    case Revoke(id, saved) => RevokeKeeps(s, h, id, saved);
    case ClaimCode(code, session, saved) => ClaimKeeps(s, h, code, session, saved);
    case Login(credential) => LoginKeeps(s, h, credential);
    case Bind =>
    case Wait(_) =>
  }

  lemma {:induction false} RunKeeps(s: Server, h: Secret -> Hash, actions: seq<Action>)
    requires Inv(s, h) && Injective(h)
    ensures Inv(Run(s, h, actions), h)
  {
    if actions != [] {
      RunKeeps(s, h, actions[..|actions| - 1]);
      hide Inv, Next, Injective;
      NextKeeps(Run(s, h, actions[..|actions| - 1]), h, actions[|actions| - 1]);
    }
  }

  /** A file this program wrote: at most 32 devices, all known before the secrets to come. */
  ghost predicate Loadable(devices: seq<Device>, h: Secret -> Hash, nextSecret: Secret) {
    |devices| <= LIMIT && DevicesOk(devices, h, nextSecret)
  }

  lemma LoadedOk(devices: seq<Device>, h: Secret -> Hash, nextSecret: Secret)
    requires Loadable(devices, h, nextSecret)
    ensures Inv(Loaded(devices, nextSecret), h)
  {
  }

  /** Over every run from a loaded file: the disk equals memory whenever the lock is
      released, saved or not; there are never more than 32 devices; active devices
      are stored ones; and a connection that was not cancelled belongs to one. */
  lemma AlwaysConsistent(devices: seq<Device>, nextSecret: Secret, h: Secret -> Hash, actions: seq<Action>)
    requires Loadable(devices, h, nextSecret) && Injective(h)
    ensures var s := Run(Loaded(devices, nextSecret), h, actions);
      && s.disk == s.stored && |s.stored| <= LIMIT
      && (forall id <- s.active :: Stores(s.stored, id))
      && forall c <- s.connections :: c.token !in s.cancelled ==> Stores(s.stored, c.device)
  {
    LoadedOk(devices, h, nextSecret);
    hide Inv;
    RunKeeps(Loaded(devices, nextSecret), h, actions);
    hide Run, Loadable, Injective;
    InvSays(Run(Loaded(devices, nextSecret), h, actions), h);
  }

  lemma InvSays(s: Server, h: Secret -> Hash)
    requires Inv(s, h)
    ensures s.disk == s.stored && |s.stored| <= LIMIT
    ensures forall id <- s.active :: Stores(s.stored, id)
    ensures forall c <- s.connections :: c.token !in s.cancelled ==> Stores(s.stored, c.device)
  {
    hide DevicesOk, OffersOk, Stores;
  }

  /** Every offer is claimed at most once, and only before it expired. */
  lemma ClaimedOnce(devices: seq<Device>, nextSecret: Secret, h: Secret -> Hash, actions: seq<Action>)
    requires Loadable(devices, h, nextSecret) && Injective(h)
    ensures var s := Run(Loaded(devices, nextSecret), h, actions);
      && (forall i, j :: 0 <= i < j < |s.claims| ==> s.claims[i].hash != s.claims[j].hash)
      && (forall i, j :: 0 <= i < j < |s.offers| ==> s.offers[i].hash != s.offers[j].hash)
      && forall c <- s.claims :: exists p <- s.offers :: p.hash == c.hash && c.at < p.expires
  {
    LoadedOk(devices, h, nextSecret);
    hide Inv;
    RunKeeps(Loaded(devices, nextSecret), h, actions);
    hide Run, Loadable, Injective;
    OffersSay(Run(Loaded(devices, nextSecret), h, actions), h);
  }

  lemma OffersSay(s: Server, h: Secret -> Hash)
    requires Inv(s, h)
    ensures forall i, j :: 0 <= i < j < |s.claims| ==> s.claims[i].hash != s.claims[j].hash
    ensures forall i, j :: 0 <= i < j < |s.offers| ==> s.offers[i].hash != s.offers[j].hash
    ensures forall c <- s.claims :: exists p <- s.offers :: p.hash == c.hash && c.at < p.expires
  {
    hide DevicesOk, ActiveOk, ConnectionsOk, NotDrawn;
  }

  // ---- Who gets in ----

  /** The device is connected, with the token it is active under or with a new one. */
  predicate Connects(s: Server, t: Server, id: Secret) {
    && id in t.active && t.connections == s.connections + [Connection(id, t.active[id])]
    && t.active == (if id in s.active then s.active else s.active[id := s.nextToken])
    && t.cancelled == s.cancelled
  }

  lemma OnlyDevice(s: Server, h: Secret -> Hash, d: Device, e: Device)
    requires Inv(s, h) && d in s.stored && e in s.stored && d.hash == e.hash
    ensures d == e
  {
  }

  /** A credential connects the one stored device it belongs to, and no other does anything. */
  lemma LoginConnects(s: Server, h: Secret -> Hash, credential: Secret, d: Device)
    requires Inv(s, h) && d in s.stored && d.hash == h(credential)
    ensures var t := LoginDevice(s, h, credential);
      Connects(s, t, d.id) && t.stored == s.stored && t.disk == s.disk && t.pending == s.pending
  {
    FindFinds(s.stored, h(credential));
    OnlyDevice(s, h, d, Find(s.stored, h(credential)).value);
  }

  lemma UnknownIsRefused(s: Server, h: Secret -> Hash, credential: Secret)
    requires forall d <- s.stored :: d.hash != h(credential)
    ensures LoginDevice(s, h, credential) == s
  {
    FindFinds(s.stored, h(credential));
  }

  /** A claim pairs a device exactly when the code is that of the pending offer, in time,
      there is room, and both the session and the file could be written. */
  lemma ClaimPairsIff(s: Server, h: Secret -> Hash, code: Secret, session: bool, saved: bool)
    requires Inv(s, h)
    ensures var t := ClaimDevice(s, h, code, session, saved);
      if session && saved && |s.stored| < LIMIT
         && s.pending.Some? && s.pending.value.hash == h(code) && s.now < s.pending.value.expires
      then
        && t.stored == t.disk == s.stored + [Device(s.nextSecret + 1, h(s.nextSecret))]
        && Connects(s, t, s.nextSecret + 1) && t.pending == None
      else
        t.stored == s.stored && t.disk == s.disk && t.active == s.active && t.connections == s.connections
        && t.pending == s.pending
  {
  }

  /** The whole way of a phone: sharing starts, an offer is made, its code is claimed before two minutes
      are over, and the credential it gets connects the device the claim stored. */
  lemma PairingSucceeds(s: Server, h: Secret -> Hash, wait: nat, a: Server, b: Server)
    requires Inv(s, h) && Injective(h) && |s.stored| < LIMIT && wait < OFFER_SECONDS
    requires a == Run(s, h, [Bind, Offer, Wait(wait)])
    requires b == ClaimDevice(a, h, s.nextSecret, true, true)
    ensures var credential, id := s.nextSecret + 1, s.nextSecret + 2;
      && Device(id, h(credential)) in b.stored && Connects(a, b, id)
      && Connects(b, LoginDevice(b, h, credential), id)
  {
    hide *;
    RunKeeps(s, h, [Bind, Offer, Wait(wait)]);
    OfferWaits(s, h, wait, a);
    ClaimStores(a, h, s.nextSecret, b);
    LoginConnects(b, h, a.nextSecret, Device(a.nextSecret + 1, h(a.nextSecret)));
  }

  lemma RunSnoc(s: Server, h: Secret -> Hash, front: seq<Action>, a: Action)
    ensures Run(s, h, []) == s && Run(s, h, front + [a]) == Next(Run(s, h, front), h, a)
  {
    hide Next;
    assert (front + [a])[..|front|] == front;
  }

  lemma OfferWaits(s: Server, h: Secret -> Hash, wait: nat, a: Server)
    requires |s.stored| < LIMIT && a == Run(s, h, [Bind, Offer, Wait(wait)])
    ensures a.pending == Some(Pending(h(s.nextSecret), s.now + OFFER_SECONDS)) && a.now == s.now + wait
    ensures a.stored == s.stored && a.nextSecret == s.nextSecret + 1
  {
    RunSnoc(s, h, [], Bind);
    RunSnoc(s, h, [Bind], Offer);
    RunSnoc(s, h, [Bind, Offer], Wait(wait));
    assert [] + [Bind] == [Bind] && [Bind] + [Offer] == [Bind, Offer];
    assert [Bind, Offer] + [Wait(wait)] == [Bind, Offer, Wait(wait)];
    hide Run;
  }

  lemma ClaimStores(s: Server, h: Secret -> Hash, code: Secret, t: Server)
    requires Inv(s, h) && Injective(h) && |s.stored| < LIMIT && t == ClaimDevice(s, h, code, true, true)
    requires s.pending.Some? && s.pending.value.hash == h(code) && s.now < s.pending.value.expires
    ensures Inv(t, h) && Connects(s, t, s.nextSecret + 1)
    ensures Device(s.nextSecret + 1, h(s.nextSecret)) in t.stored
  {
    ClaimPairsIff(s, h, code, true, true);
    ClaimKeeps(s, h, code, true, true);
    hide Inv, Injective, ClaimDevice;
    var d := Device(s.nextSecret + 1, h(s.nextSecret));
    assert t.stored[|t.stored| - 1] == d;
  }

  /** A revocation removes its device and no other; one that could not be saved removes none. */
  lemma RevokesOnly(s: Server, h: Secret -> Hash, id: Secret, saved: bool)
    requires Inv(s, h)
    ensures var t := RevokeDevice(s, id, saved);
      && (!saved ==> t == s)
      && (saved ==>
        && (forall d :: d in t.stored <==> d in s.stored && d.id != id)
        && id !in t.active
        && (forall other <- s.active :: other != id ==> other in t.active && t.active[other] == s.active[other])
        && (id in s.active ==> s.active[id] in t.cancelled) && s.cancelled <= t.cancelled
        && t.pending == s.pending)
  {
    RetainKeeps(s.stored, id);
    hide Inv;
  }

  /** Stopping drops the offer and every connection, and keeps the devices. */
  lemma StopDisconnects(s: Server)
    ensures var t := Stopped(s);
      && !t.listening && t.pending == None && t.active == map[] && t.stored == s.stored && t.disk == s.disk
      && (forall id <- s.active :: s.active[id] in t.cancelled) && s.cancelled <= t.cancelled
  {
  }

  // ---- Offers that are over, devices that are gone ----

  /** The offer is no longer pending: rotated, expired, claimed, or dropped by `stop`. */
  predicate Over(s: Server, hash: Hash) {
    s.pending.None? || s.pending.value.hash != hash || s.pending.value.expires <= s.now
  }

  ghost predicate Known(s: Server, hash: Hash) {
    exists p <- s.offers :: p.hash == hash
  }

  lemma OverStays(s: Server, h: Secret -> Hash, a: Action, hash: Hash)
    requires Inv(s, h) && Known(s, hash) && Over(s, hash)
    ensures Known(Next(s, h, a), hash) && Over(Next(s, h, a), hash)
  {
    hide DevicesOk, ActiveOk, ConnectionsOk;
    var p :| p in s.offers && p.hash == hash;
    assert NotDrawn(p.hash, h, s.nextSecret);
    assert p in Next(s, h, a).offers;
  }

  lemma OverRefuses(s: Server, h: Secret -> Hash, code: Secret, session: bool, saved: bool)
    requires Over(s, h(code))
    ensures ClaimDevice(s, h, code, session, saved) == s
  {
  }

  lemma {:induction false} OverForever(s: Server, h: Secret -> Hash, actions: seq<Action>, hash: Hash)
    requires Inv(s, h) && Injective(h) && Known(s, hash) && Over(s, hash)
    ensures Known(Run(s, h, actions), hash) && Over(Run(s, h, actions), hash)
  {
    if actions != [] {
      var front := actions[..|actions| - 1];
      OverForever(s, h, front, hash);
      RunKeeps(s, h, front);
      hide Inv, Next, Injective, Known, Over;
      OverStays(Run(s, h, front), h, actions[|actions| - 1], hash);
    }
  }

  /** What ends an offer: a stop, its timer, a new offer, a claim, or its time. */
  predicate Ends(s: Server, h: Secret -> Hash, a: Action, hash: Hash) {
    match a
    case Stop => true
    case OfferTimer(expired) => expired == hash
    case Offer => s.listening && |s.stored| < LIMIT
    case ClaimCode(code, session, saved) => ClaimDevice(s, h, code, session, saved).claims != s.claims
    case Wait(seconds) => s.pending.Some? && s.pending.value.expires <= s.now + seconds
    case _ => false
  }

  lemma EndedIsOver(s: Server, h: Secret -> Hash, a: Action, hash: Hash)
    requires Inv(s, h) && Known(s, hash) && Ends(s, h, a, hash)
    ensures Known(Next(s, h, a), hash) && Over(Next(s, h, a), hash)
  {
    hide DevicesOk, ActiveOk, ConnectionsOk;
    var p :| p in s.offers && p.hash == hash;
    assert NotDrawn(p.hash, h, s.nextSecret);
    assert p in Next(s, h, a).offers;
  }

  /** After a rotation, its time, a claim or a stop, no code of the offer is ever
      accepted again, whatever happens in between. */
  lemma NoClaimAfterwards(s: Server, h: Secret -> Hash, actions: seq<Action>, code: Secret, session: bool, saved: bool)
    requires Inv(s, h) && Injective(h) && Known(s, h(code)) && Over(s, h(code))
    ensures var t := Run(s, h, actions);
      ClaimDevice(t, h, code, session, saved) == t
  {
    OverForever(s, h, actions, h(code));
    hide Run, Inv;
    OverRefuses(Run(s, h, actions), h, code, session, saved);
  }

  /** Stopping, the offer's timer, a new offer, a claim and the passing of its time
      each end an offer for good. */
  lemma EndedOfferRefuses(s: Server, h: Secret -> Hash, a: Action, actions: seq<Action>,
      code: Secret, session: bool, saved: bool)
    requires Inv(s, h) && Injective(h) && Known(s, h(code)) && Ends(s, h, a, h(code))
    ensures var t := Run(Next(s, h, a), h, actions);
      ClaimDevice(t, h, code, session, saved) == t
  {
    hide Inv, Known, Over, Ends, Injective, Run;
    EndedIsOver(s, h, a, h(code));
    NextKeeps(s, h, a);
    NoClaimAfterwards(Next(s, h, a), h, actions, code, session, saved);
  }

  /** The id belongs to no device and cannot be drawn again. */
  ghost predicate Gone(s: Server, id: Secret) {
    id < s.nextSecret && !Stores(s.stored, id)
  }

  lemma GoneStays(s: Server, h: Secret -> Hash, a: Action, id: Secret)
    requires Gone(s, id)
    ensures Gone(Next(s, h, a), id)
  {
    if a.Revoke? {
      RetainKeeps(s.stored, a.id);
    }
  }

  lemma {:induction false} GoneForever(s: Server, h: Secret -> Hash, actions: seq<Action>, id: Secret)
    requires Gone(s, id)
    ensures Gone(Run(s, h, actions), id)
  {
    if actions != [] {
      GoneForever(s, h, actions[..|actions| - 1], id);
      hide Gone, Next;
      GoneStays(Run(s, h, actions[..|actions| - 1]), h, actions[|actions| - 1], id);
    }
  }

  /** A revoked device never gets in again: no connection of it is live after the
      revocation, and no later login or claim ever admits it. */
  lemma RevokedForever(s: Server, h: Secret -> Hash, actions: seq<Action>, id: Secret)
    requires Inv(s, h) && Injective(h) && id < s.nextSecret
    ensures var t := Run(RevokeDevice(s, id, true), h, actions);
      && !Stores(t.stored, id) && id !in t.active
      && forall c <- t.connections :: c.device == id ==> c.token in t.cancelled
  {
    var r := RevokeDevice(s, id, true);
    RetainKeeps(s.stored, id);
    assert Gone(r, id);
    RevokeKeeps(s, h, id, true);
    RunKeeps(r, h, actions);
    GoneForever(r, h, actions, id);
    hide Run, Injective, Inv, RevokeDevice;
    InvSays(Run(r, h, actions), h);
  }

  /** The credential itself is refused, too. */
  ghost predicate Refused(s: Server, h: Secret -> Hash, credential: Secret) {
    credential < s.nextSecret && forall d <- s.stored :: d.hash != h(credential)
  }

  lemma RefusedStays(s: Server, h: Secret -> Hash, a: Action, credential: Secret)
    requires Injective(h) && Refused(s, h, credential)
    ensures Refused(Next(s, h, a), h, credential)
  {
    if a.Revoke? {
      RetainKeeps(s.stored, a.id);
    }
  }

  lemma {:induction false} RefusedForever(s: Server, h: Secret -> Hash, actions: seq<Action>, credential: Secret)
    requires Injective(h) && Refused(s, h, credential)
    ensures Refused(Run(s, h, actions), h, credential)
    ensures var t := Run(s, h, actions); LoginDevice(t, h, credential) == t
  {
    if actions != [] {
      RefusedForever(s, h, actions[..|actions| - 1], credential);
      assert Refused(Run(s, h, actions), h, credential) by {
        hide Refused, Next;
        RefusedStays(Run(s, h, actions[..|actions| - 1]), h, actions[|actions| - 1], credential);
      }
    }
    hide Run;
    FindFinds(Run(s, h, actions).stored, h(credential));
  }

  /** After revoking the device of a credential, that credential never logs in. */
  lemma RevokedCredential(s: Server, h: Secret -> Hash, actions: seq<Action>, credential: Secret)
    requires Inv(s, h) && Injective(h) && credential < s.nextSecret
    requires Find(s.stored, h(credential)).Some?
    ensures var id := Find(s.stored, h(credential)).value.id;
      var t := Run(RevokeDevice(s, id, true), h, actions);
      LoginDevice(t, h, credential) == t
  {
    var d := Find(s.stored, h(credential)).value;
    FindFinds(s.stored, h(credential));
    RetainKeeps(s.stored, d.id);
    var r := RevokeDevice(s, d.id, true);
    forall e <- r.stored ensures e.hash != h(credential) {
      assert e in s.stored && e != d;
      var i, j :| 0 <= i < |s.stored| && 0 <= j < |s.stored| && s.stored[i] == d && s.stored[j] == e;
    }
    RefusedForever(r, h, actions, credential);
  }

  // ---- The server object ----

  function WithDevice(s: Server, h: Secret -> Hash, code: Secret): (t: Server)
  {
    var next := s.stored + [NewDevice(s, h)];
    s.(nextSecret := s.nextSecret + 2, disk := next, stored := next, pending := None,
       claims := s.claims + [Claim(h(code), s.now)])
  }

  lemma ClaimSplits(s: Server, h: Secret -> Hash, code: Secret)
    requires Claimable(s, h, code)
    ensures ClaimDevice(s, h, code, true, true) == Admit(WithDevice(s, h, code), s.nextSecret + 1)
    ensures ClaimDevice(s, h, code, true, false) == s.(nextSecret := s.nextSecret + 2)
  {
  }

  class MobileServer {
    const hash: Secret -> Hash
    var stored: seq<Device>
    var disk: seq<Device>
    var pending: Option<Pending>
    var listening: bool
    var active: map<Secret, Token>
    var cancelled: set<Token>
    var nextSecret: Secret
    var nextToken: Token
    var now: Time
    var offers: seq<Pending>
    var claims: seq<Claim>
    var connections: seq<Connection>

    ghost function Abs(): (s: Server)
      reads this
    {
      Server(stored, disk, pending, listening, active, cancelled, nextSecret, nextToken, now, offers, claims,
        connections)
    }

    constructor Load(hash: Secret -> Hash, devices: seq<Device>, firstSecret: Secret)
      ensures this.hash == hash && Abs() == Loaded(devices, firstSecret)
    {
      this.hash := hash;
      stored, disk, pending, listening := devices, devices, None, false;
      active, cancelled, nextSecret, nextToken, now := map[], {}, firstSecret, 0, 0;
      offers, claims, connections := [], [], [];
    }

    method DrawSecret() returns (secret: Secret)
      modifies this`nextSecret
      ensures secret == old(nextSecret) && nextSecret == secret + 1
    {
      secret := nextSecret;
      nextSecret := nextSecret + 1;
    }

    method StopSharing()
      modifies this
      ensures Abs() == Next(old(Abs()), hash, Stop)
    {
      listening := false;
      cancelled := cancelled + active.Values;
      active := map[];
      pending := None;
    }

    method OfferInternal() returns (code: Result<Secret>)
      modifies this
      ensures Abs() == Next(old(Abs()), hash, Offer)
      ensures code.Ok? <==> old(listening) && |old(stored)| < LIMIT
      ensures code.Ok? ==> pending.Some? && pending.value.hash == hash(code.value)
    {
      if !listening || |stored| >= LIMIT {
        return Err;
      }
      var secret := DrawSecret();
      pending := Some(Pending(hash(secret), now + OFFER_SECONDS));
      offers := offers + [pending.value];
      return Ok(secret);
    }

    /** `save`: writes a temporary file and renames it, or leaves the old one. */
    method Save(next: seq<Device>, works: bool) returns (ok: bool)
      modifies this`disk
      ensures ok == works && disk == if works then next else old(disk)
    {
      if works {
        disk := next;
      }
      return works;
    }

    method RevokeById(id: Secret, works: bool) returns (ok: bool)
      modifies this
      ensures Abs() == Next(old(Abs()), hash, Revoke(id, works)) && ok == works
    {
      var next := Retain(stored, id);
      ok := Save(next, works);
      if !ok {
        return;
      }
      stored := next;
      if id in active {
        cancelled := cancelled + {active[id]};
        active := active - {id};
      }
    }

    /** `devices.entry(id).or_insert_with(..)`. */
    method AdmitDevice(id: Secret)
      modifies this`active, this`nextToken, this`connections
      ensures Abs() == Admit(old(Abs()), id)
    {
      if id !in active {
        active := active[id := nextToken];
        nextToken := nextToken + 1;
      }
      connections := connections + [Connection(id, active[id])];
    }

    /** Registers a device under a new id and credential, on disk first. */
    method RegisterDevice(code: Secret, works: bool) returns (admitted: Option<Secret>)
      requires Claimable(Abs(), hash, code)
      modifies this
      ensures Abs() == ClaimDevice(old(Abs()), hash, code, true, works)
      ensures admitted.Some? <==> works
    {
      ghost var s := Abs();
      ClaimSplits(s, hash, code);
      hide Claimable, Admit, ClaimDevice;
      var credential, id := nextSecret, nextSecret + 1;
      nextSecret := nextSecret + 2;
      var next := stored + [Device(id, hash(credential))];
      if !works {
        return None;
      }
      disk, stored, pending := next, next, None;
      claims := claims + [Claim(hash(code), now)];
      assert Abs() == WithDevice(s, hash, code);
      hide WithDevice;
      AdmitDevice(id);
      return Some(id);
    }

    /** `authorize` with a pairing code. */
    method AuthorizeClaim(code: Secret, session: bool, works: bool) returns (admitted: Option<Secret>)
      modifies this
      ensures Abs() == Next(old(Abs()), hash, ClaimCode(code, session, works))
      ensures admitted.Some? <==> Claimable(old(Abs()), hash, code) && session && works
    {
      hide Admit;
      if pending.None? {
        return None;
      }
      if pending.value.expires <= now || pending.value.hash != hash(code) || |stored| >= LIMIT || !session {
        return None;
      }
      admitted := RegisterDevice(code, works);
    }

    /** `authorize` with a credential. */
    method AuthorizeLogin(credential: Secret) returns (admitted: Option<Secret>)
      modifies this
      ensures Abs() == Next(old(Abs()), hash, Login(credential))
      ensures admitted.Some? <==> exists d <- old(stored) :: d.hash == hash(credential)
    {
      FindFinds(stored, hash(credential));
      var d := Find(stored, hash(credential));
      if d.None? {
        return None;
      }
      AdmitDevice(d.value.id);
      return Some(d.value.id);
    }
  }
}
