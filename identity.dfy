/** Sessions and the clients bound to them (src/Session.hpp,
    src/Client.cpp). A session keeps the clients connected through it and
    an expiry time; a client registers itself with its session when it is
    built and unregisters when it is destroyed. Time points are integer
    seconds passed in by the caller; clients are known by identity. */
module Identity {
  import opened Wrappers

  /** The User a session owns, known by identity. */
  type UserRef = nat

  /** `s` without any occurrence of `c`, the rest in order. */
  function Without(s: seq<Client>, c: Client): seq<Client>
    decreases |s|
  {
    if s == [] then []
    else Without(s[..|s| - 1], c) + (if s[|s| - 1] == c then [] else [s[|s| - 1]])
  }

  /** Removing `c` removes every occurrence of it and nothing else. */
  lemma {:induction false} WithoutSpec(s: seq<Client>, c: Client)
    ensures c !in Without(s, c)
    ensures forall d :: d != c ==> (d in Without(s, c) <==> d in s)
    ensures forall d :: d != c ==> multiset(Without(s, c))[d] == multiset(s)[d]
    ensures c !in s ==> Without(s, c) == s
    decreases |s|
  {
    if s != [] {
      var init := s[..|s| - 1];
      WithoutSpec(init, c);
      assert s == init + [s[|s| - 1]];
    }
  }

  class Session {
    const user: UserRef
    /** The live clients, in the order they registered. */
    var activeClients: seq<Client>
    /** The inactivity allowance, in minutes. */
    const maxInactivity: nat
    const creatorIp: nat
    const creatorUa: string
    const creatorLang: string
    const created: int
    var expires: int

    /** Session.cpp is not part of this model: the creation time is taken
        to be `now`, and the first expiry one allowance later. */
    constructor (u: UserRef, ip: nat, ua: string, lang: string, inactivity: nat, now: int)
      ensures user == u && creatorIp == ip && creatorUa == ua && creatorLang == lang
      ensures maxInactivity == inactivity && created == now
      ensures activeClients == [] && expires == now + 60 * inactivity
    {
      user := u;
      creatorIp := ip;
      creatorUa := ua;
      creatorLang := lang;
      maxInactivity := inactivity;
      created := now;
      activeClients := [];
      expires := now + 60 * inactivity;
    }

    /** `addClient(c)`: `c` joins the active clients; the session cannot
        expire while it is there. */
    method AddClient(c: Client)
      modifies this
      ensures activeClients == old(activeClients) + [c] && expires == old(expires)
      ensures c in activeClients && forall now :: !IsExpired(now)
    {
      activeClients := activeClients + [c];
    }

    /** `delClient(c)`: `c` leaves the active clients. */
    method DelClient(c: Client)
      modifies this
      ensures activeClients == Without(old(activeClients), c) && expires == old(expires)
      ensures c !in activeClients
    {
      var kept: seq<Client> := [];
      var i := 0;
      while i < |activeClients|
        invariant 0 <= i <= |activeClients|
        invariant kept == Without(activeClients[..i], c)
      {
        assert activeClients[..i + 1][..i] == activeClients[..i];
        if activeClients[i] != c {
          kept := kept + [activeClients[i]];
        }
        i := i + 1;
      }
      assert activeClients[..i] == activeClients;
      WithoutSpec(activeClients, c);
      activeClients := kept;
    }

    /** `updateExpiryTime()`: the session now expires one allowance after
        `now` (the only place `expires` changes). */
    method UpdateExpiryTime(now: int)
      modifies this
      ensures expires == now + 60 * maxInactivity && activeClients == old(activeClients)
    {
      expires := now + 60 * maxInactivity;
    }

    /** `isExpired()`: never while a client is active; otherwise once the
        expiry time has passed. */
    predicate IsExpired(now: int): (expired: bool)
      reads this
      ensures expired ==> activeClients == []
    {
      activeClients == [] && now > expires
    }

    function GetUser(): UserRef { user }
    function GetCreationTime(): int { created }
    function GetExpiryTime(): int reads this { expires }
    function GetCreatorIp(): nat { creatorIp }
    function GetCreatorUserAgent(): string { creatorUa }
    function GetPreferredLanguage(): string { creatorLang }
  }

  /** Whatever a session's clients do, its creator data and user stay what
      the constructor was given, and it expires only once the last client
      has left and the expiry time has passed. */
  method SessionLifetime(u: UserRef, ip: nat, ua: string, lang: string, inactivity: nat,
                         t0: int, t1: int, ws: nat, cip: nat)
    returns (s: Session, c: Client)
    requires t0 <= t1
    ensures s.GetUser() == u && s.GetCreatorIp() == ip && s.GetCreatorUserAgent() == ua
    ensures s.GetPreferredLanguage() == lang && s.GetCreationTime() == t0
    ensures c.session == s && c.GetUser() == u && c.GetIp() == cip
    ensures c !in s.activeClients && s.activeClients == []
    ensures s.GetExpiryTime() == t1 + 60 * inactivity
    ensures s.IsExpired(t1 + 60 * inactivity + 1) && !s.IsExpired(t1 + 60 * inactivity)
  {
    s := new Session(u, ip, ua, lang, inactivity, t0);
    var r := Connect(ws, s, cip, t1);
    c := r.value;
    assert !s.IsExpired(t1 + 60 * inactivity + 1);
    s.UpdateExpiryTime(t1);
    c.Destroy();
  }

  class Client {
    /** The WebSocket, known by identity. */
    const ws: nat
    const session: Session
    const ip: nat
    const connectedOn: int
    var lastAction: int

    /** The part of the constructor after the null check: both clocks read
        as `now`, then the client registers with its session. */
    constructor (w: nat, s: Session, addr: nat, now: int)
      modifies s
      ensures ws == w && session == s && ip == addr
      ensures connectedOn == now && lastAction == now
      ensures s.activeClients == old(s.activeClients) + [this] && s.expires == old(s.expires)
    {
      ws := w;
      session := s;
      ip := addr;
      connectedOn := now;
      lastAction := now;
      new;
      s.AddClient(this);
    }

    /** `~Client()`: unregister from the same session. */
    method Destroy()
      modifies session
      ensures session.activeClients == Without(old(session.activeClients), this)
      ensures this !in session.activeClients && session.expires == old(session.expires)
    {
      session.DelClient(this);
    }

    method UpdateLastActionTime(now: int)
      modifies this
      ensures lastAction == now
    {
      lastAction := now;
    }

    /** The whole seconds since the connection opened. */
    function GetSecondsConnected(now: int): int { now - connectedOn }

    function GetLastActionTime(): int reads this { lastAction }
    function GetIp(): nat { ip }
    function GetWs(): nat { ws }
    function GetSession(): Session { session }
    function GetUser(): UserRef { session.user }

    /** Inactive clients may always be kicked. */
    function InactiveKickEnabled(): (enabled: bool)
      ensures enabled
    {
      true
    }

    /** `operator==`: two clients are equal only when they are the same object. */
    function Equals(c: Client): (same: bool)
      ensures same <==> this == c
    {
      this == c
    }
  }

  /** `Client(ws, s, ip, pb)`: a null session is refused with
      `invalid_argument` and nothing registers; otherwise the new client is
      registered with its session exactly once. */
  method Connect(w: nat, s: Session?, addr: nat, now: int) returns (r: Result<Client, string>)
    modifies s
    ensures s == null ==> r == Failure("Client session is null?!")
    ensures s != null ==>
      (r.Success? && fresh(r.value)
       && r.value.session == s && r.value.ip == addr && r.value.ws == w
       && r.value.connectedOn == now && r.value.lastAction == now
       && s.activeClients == old(s.activeClients) + [r.value]
       && multiset(s.activeClients)[r.value] == 1
       && s.expires == old(s.expires))
  {
    if s == null {
      return Failure("Client session is null?!");
    }
    var c := new Client(w, s, addr, now);
    assert c !in old(s.activeClients);
    r := Success(c);
  }
}
