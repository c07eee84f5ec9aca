/** Identity binding of sockets and requests inside the pod (internal/webuiguard/chatui_guard.py). */
module SocketGuard {
  import opened Basics
  import Hostnames

  // ---- identity ----

  datatype Header = Header(key: string, value: string)

  const EMAIL := "x-chatui-email"
  const ROLE := "x-chatui-role"
  const DOMAIN := "@chatui.invalid"

  /** `Raises` stands for the exception of a strict decoding. */
  datatype Identity = Raises | Nobody | User(email: string)

  predicate Ascii(s: string) { forall i :: 0 <= i < |s| ==> s[i] < 128 as char }

  /** The values of one header, by its name in lower case. */
  function Values(headers: seq<Header>, name: string): seq<string> {
    if headers == [] then []
    else (if Hostnames.Lower(headers[0].key) == name then [headers[0].value] else []) + Values(headers[1..], name)
  }

  predicate HasSuffix(s: string, suffix: string) { |suffix| <= |s| && s[|s| - |suffix|..] == suffix }

  function IdentityOf(headers: seq<Header>): Identity {
    var values, roles := Values(headers, EMAIL), Values(headers, ROLE);
    if exists i :: 0 <= i < |values| && !Ascii(values[i]) then Raises
    else if |values| != 1 || roles != ["user"] || !HasSuffix(values[0], DOMAIN) then Nobody
    else User(values[0])
  }

  lemma {:induction false} ValuesAppend(a: seq<Header>, b: seq<Header>, name: string)
    ensures Values(a + b, name) == Values(a, name) + Values(b, name)
  {
    if a == [] {
      assert a + b == b;
    } else {
      assert (a + b)[1..] == a[1..] + b;
      ValuesAppend(a[1..], b, name);
    }
  }

  /** The two comprehensions of `identity`. */
  method ReadIdentity(headers: seq<Header>) returns (id: Identity)
    ensures id == IdentityOf(headers)
  {
    var values, roles := [], [];
    for i := 0 to |headers|
      invariant values == Values(headers[..i], EMAIL) && roles == Values(headers[..i], ROLE)
      invariant forall k :: 0 <= k < |values| ==> Ascii(values[k])
    {
      assert headers[..i + 1] == headers[..i] + [headers[i]];
      ValuesAppend(headers[..i], [headers[i]], EMAIL);
      ValuesAppend(headers[..i], [headers[i]], ROLE);
      if Hostnames.Lower(headers[i].key) == EMAIL {
        if !Ascii(headers[i].value) {
          RaisesLater(headers, i);
          return Raises;
        }
        values := values + [headers[i].value];
      }
      if Hostnames.Lower(headers[i].key) == ROLE {
        roles := roles + [headers[i].value];
      }
    }
    assert headers[..|headers|] == headers;
    if |values| != 1 || roles != ["user"] || !HasSuffix(values[0], DOMAIN) {
      return Nobody;
    }
    return User(values[0]);
  }

  lemma RaisesLater(headers: seq<Header>, i: nat)
    requires i < |headers| && Hostnames.Lower(headers[i].key) == EMAIL && !Ascii(headers[i].value)
    ensures IdentityOf(headers) == Raises
  {
    var before := Values(headers[..i], EMAIL);
    assert headers == headers[..i] + headers[i..];
    ValuesAppend(headers[..i], headers[i..], EMAIL);
    assert Values(headers, EMAIL)[|before|] == headers[i].value;
  }

  // ---- accounts ----

  /** A value of the decoded payload. */
  datatype Json = Text(text: string) | Dict(fields: map<string, Json>) | Opaque

  datatype Account = Account(email: string, role: string)

  function Field(v: Json, key: string): Json { if v.Dict? && key in v.fields then v.fields[key] else Opaque }

  const API_KEY := "sk-"

  /** A token that `matches` looks up; anything else fails at once. */
  predicate Plausible(token: Json) { token.Text? && token.text != "" && !(API_KEY <= token.text) }

  predicate Matches(accounts: map<string, Account>, token: string, email: string) {
    token in accounts && accounts[token].email == email && accounts[token].role == "user"
  }

  // ---- sockets ----

  type Sid = nat

  datatype Event = Connect | Disconnect | UserJoin | Named(name: string)

  /** Where a guarded call waits. `Running` is inside the application's own handler; `handed` is the
      token it was given. */
  datatype Wait =
    | GetSession | SessionUser(token: string) | Kick
    | Payload(next: nat, token: string) | Join(token: string) | Auth(token: string)
    | Running(handed: Option<string>) | Finished

  /** One call of a guarded handler; `matched` is the session token that it checked. */
  datatype Frame = Frame(event: Event, sid: Sid, payloads: seq<Json>, email: string, matched: Option<string>, wait: Wait)

  /** `environs` are the live sockets' handshakes, `handshakes` all that ever were. `issued` remembers
      whose every token is; an account may be revoked or change its role. */
  datatype State = State(
    environs: map<Sid, seq<Header>>, handshakes: map<Sid, seq<Header>>, sessions: map<Sid, string>,
    accounts: map<string, Account>, issued: map<string, string>, frames: seq<Frame>)

  // ---- the guarded call, from one await to the next ----

  /** The first payload from `k` on that carries credentials. */
  function NextAuth(payloads: seq<Json>, k: nat): (n: nat)
    requires k <= |payloads|
    ensures k <= n <= |payloads|
    decreases |payloads| - k
  {
    if k == |payloads| || (payloads[k].Dict? && "auth" in payloads[k].fields) then k else NextAuth(payloads, k + 1)
  }

  function JoinToken(f: Frame): Json {
    if |f.payloads| == 0 then Opaque else Field(Field(f.payloads[0], "auth"), "token")
  }

  /** Lines 61-69 from payload `k` on. */
  function CheckPayloads(f: Frame, k: nat): Wait
    requires k <= |f.payloads|
  {
    var n := NextAuth(f.payloads, k);
    if n < |f.payloads| then
      var token := Field(Field(f.payloads[n], "auth"), "token");
      if Plausible(token) then Payload(n + 1, token.text) else Finished
    else if f.event.UserJoin? then
      if Plausible(JoinToken(f)) then Join(JoinToken(f).text) else Finished
    else Running(None)
  }

  /** Line 39-54 of a call that just arrived. `auth` is the argument of `connect`. */
  function Begin(event: Event, sid: Sid, payloads: seq<Json>, auth: Json, email: string): Frame {
    var f := Frame(event, sid, payloads, email, None, Finished);
    f.(wait :=
      if event.Connect? then
        (if Plausible(Field(auth, "token")) then Auth(Field(auth, "token").text) else Running(None))
      else if event.Named? then GetSession
      else CheckPayloads(f, 0))
  }

  /** What a suspended call does next, in the state it wakes up in. */
  function Wake(s: State, f: Frame): Frame {
    match f.wait
    case GetSession =>
      f.(wait := if f.sid in s.sessions && s.sessions[f.sid] != "" && !(API_KEY <= s.sessions[f.sid]) then SessionUser(s.sessions[f.sid])
                 else if f.sid in s.sessions && s.sessions[f.sid] != "" then Kick else Finished)
    case SessionUser(token) =>
      if Matches(s.accounts, token, f.email) then f.(matched := Some(token), wait := CheckPayloads(f, 0)) else f.(wait := Kick)
    case Payload(k, token) =>
      f.(wait := if Matches(s.accounts, token, f.email) && k <= |f.payloads| then CheckPayloads(f, k) else Finished)
    case Join(token) => f.(wait := if Matches(s.accounts, token, f.email) then Running(Some(token)) else Finished)
    case Auth(token) => f.(wait := Running(if Matches(s.accounts, token, f.email) then Some(token) else None))
    case Kick => f.(wait := Finished)
    case Running(_) => f
    case Finished => f
  }

  // ---- runs ----

  /** `Open` is a new socket, whose `connect` handler is called at once; `Call` any other event of
      a socket; `Resume` wakes a suspended call; `Store` lets the application's handler keep the
      token it was given; `Drop` closes a socket. */
  datatype Move =
    | Open(sid: Sid, headers: seq<Header>, auth: Json) | Call(event: Event, sid: Sid, payloads: seq<Json>)
    | Resume(frame: nat) | Store(frame: nat) | Drop(sid: Sid)
    | Issue(token: string, account: Account) | Revoke(token: string) | SetRole(token: string, role: string)

  function Start(s: State, event: Event, sid: Sid, payloads: seq<Json>, auth: Json): State
    requires sid in s.environs
  {
    var id := IdentityOf(s.environs[sid]);
    if id.User? then s.(frames := s.frames + [Begin(event, sid, payloads, auth, id.email)]) else s
  }

  function Step(s: State, m: Move): State {
    match m
    case Open(sid, headers, auth) =>
      if sid in s.handshakes then s
      else Start(s.(environs := s.environs[sid := headers], handshakes := s.handshakes[sid := headers]), Connect, sid, [], auth)
    case Call(event, sid, payloads) =>
      if event.Connect? || sid !in s.environs then s else Start(s, event, sid, payloads, Opaque)
    case Resume(i) => if i < |s.frames| then ResumeFrame(s, i) else s
    case Store(i) =>
      if i < |s.frames| && s.frames[i].wait.Running? && s.frames[i].wait.handed.Some?
      then s.(sessions := s.sessions[s.frames[i].sid := s.frames[i].wait.handed.value]) else s
    case Drop(sid) => s.(environs := s.environs - {sid}, sessions := s.sessions - {sid})
    case Issue(token, account) =>
      if token in s.issued then s
      else s.(accounts := s.accounts[token := account], issued := s.issued[token := account.email])
    case Revoke(token) => s.(accounts := s.accounts - {token})
    case SetRole(token, role) =>
      if token in s.accounts then s.(accounts := s.accounts[token := s.accounts[token].(role := role)]) else s
  }

  /** A call that gives up on its session also disconnects the socket. */
  function ResumeFrame(s: State, i: nat): State
    requires i < |s.frames|
  {
    var f := s.frames[i];
    var t := s.(frames := s.frames[i := Wake(s, f)]);
    if f.wait.Kick? then t.(environs := t.environs - {f.sid}, sessions := t.sessions - {f.sid}) else t
  }

  function Exec(s: State, moves: seq<Move>): State {
    if moves == [] then s else Step(Exec(s, moves[..|moves| - 1]), moves[|moves| - 1])
  }

  predicate Initial(s: State) {
    s.environs == map[] && s.handshakes == map[] && s.sessions == map[] && s.accounts == map[] && s.issued == map[] && s.frames == []
  }

  // ---- the binding ----

  predicate Bound(s: State, sid: Sid, email: string) { sid in s.handshakes && IdentityOf(s.handshakes[sid]) == User(email) }

  predicate Belongs(s: State, token: string, email: string) { token in s.issued && s.issued[token] == email }

  /** A call is past its session check. */
  predicate Past(w: Wait) { w.Payload? || w.Running? || w.Join? }

  predicate FrameBound(s: State, f: Frame) {
    && Bound(s, f.sid, f.email)
    && (f.wait.Running? && f.wait.handed.Some? ==> Belongs(s, f.wait.handed.value, f.email))
    && (f.matched.Some? ==> Belongs(s, f.matched.value, f.email))
    && (f.event.Named? && Past(f.wait) ==> f.matched.Some?)
    && (f.wait.Join? ==> f.event.UserJoin?) && (f.wait.Auth? ==> f.event.Connect?)
  }

  predicate Inv(s: State) {
    && (forall t :: t in s.accounts ==> Belongs(s, t, s.accounts[t].email))
    && (forall sid :: sid in s.environs ==> sid in s.handshakes && s.handshakes[sid] == s.environs[sid])
    && (forall i :: 0 <= i < |s.frames| ==> FrameBound(s, s.frames[i]))
    && (forall sid :: sid in s.sessions ==>
          sid in s.handshakes && IdentityOf(s.handshakes[sid]).User? && Belongs(s, s.sessions[sid], IdentityOf(s.handshakes[sid]).email))
  }

  lemma WakeBound(s: State, f: Frame)
    requires Inv(s) && FrameBound(s, f)
    ensures FrameBound(s, Wake(s, f))
  {
    hide IdentityOf;
  }

  lemma BeginBound(s: State, event: Event, sid: Sid, payloads: seq<Json>, auth: Json, email: string)
    requires Bound(s, sid, email)
    ensures FrameBound(s, Begin(event, sid, payloads, auth, email))
  {
    hide IdentityOf;
  }

  /** New sockets and new accounts leave what is bound as it is. */
  lemma FramesStay(s: State, t: State)
    requires Inv(s) && t.frames == s.frames
    requires forall sid :: sid in s.handshakes ==> sid in t.handshakes && t.handshakes[sid] == s.handshakes[sid]
    requires forall x :: x in s.issued ==> x in t.issued && t.issued[x] == s.issued[x]
    ensures forall i :: 0 <= i < |t.frames| ==> FrameBound(t, t.frames[i])
  {
    hide IdentityOf;
  }

  lemma StartInv(s: State, event: Event, sid: Sid, payloads: seq<Json>, auth: Json)
    requires Inv(s) && sid in s.environs
    ensures Inv(Start(s, event, sid, payloads, auth))
  {
    hide IdentityOf, Begin, FrameBound;
    var id := IdentityOf(s.environs[sid]);
    if id.User? {
      var t := Start(s, event, sid, payloads, auth);
      BeginBound(t, event, sid, payloads, auth, id.email);
      forall i | 0 <= i < |t.frames| ensures FrameBound(t, t.frames[i]) {
        if i < |s.frames| {
          SameBound(s, t, s.frames[i]);
        }
      }
    }
  }

  lemma SameBound(s: State, t: State, f: Frame)
    requires FrameBound(s, f) && t.handshakes == s.handshakes && t.issued == s.issued
    ensures FrameBound(t, f)
  {}

  lemma ResumeInv(s: State, i: nat)
    requires Inv(s) && i < |s.frames|
    ensures Inv(ResumeFrame(s, i))
  {
    hide IdentityOf, Wake, FrameBound;
    var t := ResumeFrame(s, i);
    WakeBound(s, s.frames[i]);
    forall j | 0 <= j < |t.frames| ensures FrameBound(t, t.frames[j]) {
      SameBound(s, t, t.frames[j]);
    }
  }

  lemma StepInv(s: State, m: Move)
    requires Inv(s)
    ensures Inv(Step(s, m))
  {
    hide Inv, Start, ResumeFrame, IdentityOf;
    match m
    case Open(sid, headers, auth) =>
      if sid !in s.handshakes {
        SocketInv(s, sid, headers);
        var t := s.(environs := s.environs[sid := headers], handshakes := s.handshakes[sid := headers]);
        StartInv(t, Connect, sid, [], auth);
      }
    case Call(event, sid, payloads) =>
      if !event.Connect? && sid in s.environs {
        StartInv(s, event, sid, payloads, Opaque);
      }
    case Resume(i) =>
      if i < |s.frames| {
        ResumeInv(s, i);
      }
    case Store(i) => StoreInv(s, i);
    case Drop(sid) => DropInv(s, sid);
    case Issue(token, account) => AccountsInv(s, m);
    case Revoke(token) => AccountsInv(s, m);
    case SetRole(token, role) => AccountsInv(s, m);
  }

  lemma SocketInv(s: State, sid: Sid, headers: seq<Header>)
    requires Inv(s) && sid !in s.handshakes
    ensures Inv(s.(environs := s.environs[sid := headers], handshakes := s.handshakes[sid := headers]))
  {
    hide IdentityOf, FrameBound;
    FramesStay(s, s.(environs := s.environs[sid := headers], handshakes := s.handshakes[sid := headers]));
  }

  lemma DropInv(s: State, sid: Sid)
    requires Inv(s)
    ensures Inv(s.(environs := s.environs - {sid}, sessions := s.sessions - {sid}))
  {
    hide IdentityOf, FrameBound;
    FramesStay(s, s.(environs := s.environs - {sid}, sessions := s.sessions - {sid}));
  }

  lemma AccountsInv(s: State, m: Move)
    requires Inv(s) && (m.Issue? || m.Revoke? || m.SetRole?)
    ensures Inv(Step(s, m))
  {
    hide IdentityOf, FrameBound;
    FramesStay(s, Step(s, m));
  }

  lemma StoreInv(s: State, i: nat)
    requires Inv(s)
    ensures Inv(Step(s, Store(i)))
  {
    hide IdentityOf;
    if i < |s.frames| {
      assert FrameBound(s, s.frames[i]);
      FramesStay(s, Step(s, Store(i)));
    }
  }

  lemma {:induction false} RunsBound(s: State, moves: seq<Move>)
    requires Initial(s)
    ensures Inv(Exec(s, moves))
  {
    hide Inv, Step;
    if moves == [] {
      InitialBound(s);
    } else {
      RunsBound(s, moves[..|moves| - 1]);
      StepInv(Exec(s, moves[..|moves| - 1]), moves[|moves| - 1]);
    }
  }

  lemma InitialBound(s: State)
    requires Initial(s)
    ensures Inv(s)
  {}

  /** In every interleaving, a token in a socket's session belongs to the identity of that socket's handshake. */
  lemma SessionTokensBelong(s: State, moves: seq<Move>, sid: Sid)
    requires Initial(s) && sid in Exec(s, moves).sessions
    ensures var t := Exec(s, moves);
      && sid in t.handshakes && IdentityOf(t.handshakes[sid]).User?
      && Belongs(t, t.sessions[sid], IdentityOf(t.handshakes[sid]).email)
  {
    hide IdentityOf, Exec, FrameBound;
    RunsBound(s, moves);
  }

  // ---- no handler without a check in the same call ----

  function At(s: State, moves: seq<Move>, k: nat): State
    requires k <= |moves|
  {
    Exec(s, moves[..k])
  }

  predicate Fresh(f: Frame) { f.matched.None? && !f.wait.SessionUser? }

  lemma BeginFresh(event: Event, sid: Sid, payloads: seq<Json>, auth: Json, email: string)
    ensures Fresh(Begin(event, sid, payloads, auth, email))
  {}

  /** A call is new, as it was, or has just been woken up. */
  lemma FrameStep(s: State, m: Move, i: nat)
    requires i < |Step(s, m).frames|
    ensures var f := Step(s, m).frames[i];
      if i < |s.frames| then f == s.frames[i] || (m == Resume(i) && f == Wake(s, s.frames[i])) else Fresh(f)
  {
    hide IdentityOf, Wake, Begin, Fresh, Start, ResumeFrame;
    if m.Open? && m.sid !in s.handshakes {
      var t := s.(environs := s.environs[m.sid := m.headers], handshakes := s.handshakes[m.sid := m.headers]);
      StartAdds(t, Connect, m.sid, [], m.auth);
    } else if m.Call? && m.sid in s.environs {
      StartAdds(s, m.event, m.sid, m.payloads, Opaque);
    } else if m.Resume? && m.frame < |s.frames| {
      ResumeWakes(s, m.frame);
    }
  }

  lemma StartAdds(s: State, event: Event, sid: Sid, payloads: seq<Json>, auth: Json)
    requires sid in s.environs
    ensures var t := Start(s, event, sid, payloads, auth);
      && |s.frames| <= |t.frames| && t.frames[..|s.frames|] == s.frames
      && forall i :: |s.frames| <= i < |t.frames| ==> Fresh(t.frames[i])
  {
    hide IdentityOf, Begin, Fresh;
    var id := IdentityOf(s.environs[sid]);
    if id.User? {
      BeginFresh(event, sid, payloads, auth, id.email);
    }
  }

  lemma ResumeWakes(s: State, i: nat)
    requires i < |s.frames|
    ensures ResumeFrame(s, i).frames == s.frames[i := Wake(s, s.frames[i])]
  {
    hide Wake;
  }

  lemma WakeChecks(s: State, f: Frame, token: string)
    ensures Wake(s, f).wait == SessionUser(token) ==>
      f.wait == SessionUser(token) || (f.wait.GetSession? && f.sid in s.sessions && s.sessions[f.sid] == token)
    ensures Wake(s, f).matched == Some(token) ==>
      f.matched == Some(token) || (f.wait == SessionUser(token) && Matches(s.accounts, token, f.email))
    ensures Wake(s, f).sid == f.sid && Wake(s, f).email == f.email && Wake(s, f).event == f.event
  {}

  /** Call `i` read the token from its socket's session at step `j`. */
  predicate ReadsToken(s: State, moves: seq<Move>, j: nat, i: nat, token: string) {
    && j < |moves| && moves[j] == Resume(i) && i < |At(s, moves, j).frames|
    && At(s, moves, j).frames[i].wait.GetSession?
    && At(s, moves, j).frames[i].sid in At(s, moves, j).sessions
    && At(s, moves, j).sessions[At(s, moves, j).frames[i].sid] == token
  }

  /** Call `i` found at step `l` that the token is the account of its socket's identity. */
  predicate ChecksToken(s: State, moves: seq<Move>, l: nat, i: nat, token: string) {
    && l < |moves| && moves[l] == Resume(i) && i < |At(s, moves, l).frames|
    && At(s, moves, l).frames[i].wait == SessionUser(token)
    && Matches(At(s, moves, l).accounts, token, At(s, moves, l).frames[i].email)
  }

  lemma AtPrefix(s: State, moves: seq<Move>, k: nat, j: nat)
    requires j <= k <= |moves|
    ensures At(s, moves[..k], j) == At(s, moves, j)
  {
    assert moves[..k][..j] == moves[..j];
  }

  lemma {:induction false} TokenWasRead(s: State, moves: seq<Move>, i: nat) returns (j: nat)
    requires Initial(s) && i < |Exec(s, moves).frames| && Exec(s, moves).frames[i].wait.SessionUser?
    ensures ReadsToken(s, moves, j, i, Exec(s, moves).frames[i].wait.token)
  {
    hide Step, Wake;
    var k := |moves| - 1;
    var was := Exec(s, moves[..k]);
    var f := Exec(s, moves).frames[i];
    FrameStep(was, moves[k], i);
    if i < |was.frames| {
      WakeChecks(was, was.frames[i], f.wait.token);
    }
    if was.frames[i].wait == f.wait {
      j := TokenWasRead(s, moves[..k], i);
      AtPrefix(s, moves, k, j);
    } else {
      j := k;
    }
  }

  lemma {:induction false} TokenWasChecked(s: State, moves: seq<Move>, i: nat) returns (j: nat, l: nat)
    requires Initial(s) && i < |Exec(s, moves).frames| && Exec(s, moves).frames[i].matched.Some?
    ensures j < l
    ensures ReadsToken(s, moves, j, i, Exec(s, moves).frames[i].matched.value)
    ensures ChecksToken(s, moves, l, i, Exec(s, moves).frames[i].matched.value)
  {
    hide Step, Wake, Matches;
    var k := |moves| - 1;
    var was := Exec(s, moves[..k]);
    var f := Exec(s, moves).frames[i];
    FrameStep(was, moves[k], i);
    if i < |was.frames| {
      WakeChecks(was, was.frames[i], f.matched.value);
    }
    if was.frames[i].matched == f.matched {
      j, l := TokenWasChecked(s, moves[..k], i);
      AtPrefix(s, moves, k, j);
      AtPrefix(s, moves, k, l);
    } else {
      l := k;
      j := TokenWasRead(s, moves[..k], i);
      AtPrefix(s, moves, k, j);
    }
  }

  /** In every interleaving, an application handler other than those of connect, disconnect and
      user-join runs only after the same call read the socket's session token and then found that it
      is the account of the socket's handshake identity. */
  lemma HandlersRunAfterTheirCheck(s: State, moves: seq<Move>, i: nat) returns (j: nat, l: nat)
    requires Initial(s) && i < |Exec(s, moves).frames|
    requires Exec(s, moves).frames[i].event.Named? && Exec(s, moves).frames[i].wait.Running?
    ensures var f := Exec(s, moves).frames[i];
      && Bound(Exec(s, moves), f.sid, f.email) && f.matched.Some? && j < l
      && ReadsToken(s, moves, j, i, f.matched.value) && ChecksToken(s, moves, l, i, f.matched.value)
  {
    hide Exec, Wake, Matches, IdentityOf, ReadsToken, ChecksToken;
    RunsBound(s, moves);
    assert FrameBound(Exec(s, moves), Exec(s, moves).frames[i]);
    j, l := TokenWasChecked(s, moves, i);
  }

  // ---- requests ----

  const AUTHORIZATION := "authorization"
  const COOKIE := "cookie"
  const SOCKET_PATH := "/ws/socket.io"
  const SIGNIN_PATH := "/api/v1/auths/signin"
  const VERSION_PATH := "/api/version"

  type Cookies = string -> map<string, string>

  /** The accounts as the `n`-th lookup of a request finds them. */
  type Lookup = (nat, string) -> Option<Account>

  /** What becomes of one header: it stays, it is left out, or the request is refused. */
  datatype Verdict = Pass | Skip | Stale | Broken

  /** Text before the first space, and after it. */
  function Partition(s: string): (string, string) {
    if s == "" then ("", "")
    else if s[0] == ' ' then ("", s[1..])
    else var (a, b) := Partition(s[1..]); ([s[0]] + a, b)
  }

  predicate Owned(lookup: Lookup, n: nat, token: string, email: string) {
    && Plausible(Text(token)) && lookup(n, token).Some?
    && lookup(n, token).value.email == email && lookup(n, token).value.role == "user"
  }

  /** The token that a header carries, if any. */
  function Carried(h: Header, cookies: Cookies): Option<string> {
    if Hostnames.Lower(h.key) == AUTHORIZATION then Some(Partition(h.value).1)
    else if Hostnames.Lower(h.key) == COOKIE && "token" in cookies(h.value) then Some(cookies(h.value)["token"])
    else None
  }

  function Judge(h: Header, n: nat, email: string, skip: bool, cookies: Cookies, lookup: Lookup): Verdict {
    if Hostnames.Lower(h.key) == AUTHORIZATION then
      if skip then Skip
      else if !Ascii(h.value) then Broken
      else if Hostnames.Lower(Partition(h.value).0) != "bearer" || !Owned(lookup, n, Partition(h.value).1, email) then Stale
      else Pass
    else if Hostnames.Lower(h.key) == COOKIE then
      if !Ascii(h.value) then Broken
      else if "token" !in cookies(h.value) then Pass
      else if skip then Skip
      else if !Owned(lookup, n, cookies(h.value)["token"], email) then Stale
      else Pass
    else Pass
  }

  /** The headers whose verdict is `Pass`, in their order; `n` numbers the first one. */
  function Passing(headers: seq<Header>, n: nat, email: string, skip: bool, cookies: Cookies, lookup: Lookup): seq<Header> {
    if headers == [] then []
    else (if Judge(headers[0], n, email, skip, cookies, lookup).Pass? then [headers[0]] else [])
         + Passing(headers[1..], n + 1, email, skip, cookies, lookup)
  }

  lemma {:induction false} PassingSnoc(hs: seq<Header>, h: Header, n: nat, email: string, skip: bool, cookies: Cookies, lookup: Lookup)
    ensures Passing(hs + [h], n, email, skip, cookies, lookup)
         == Passing(hs, n, email, skip, cookies, lookup)
            + (if Judge(h, n + |hs|, email, skip, cookies, lookup).Pass? then [h] else [])
  {
    hide Judge;
    if hs == [] {
      assert hs + [h] == [h];
    } else {
      assert (hs + [h])[1..] == hs[1..] + [h];
      PassingSnoc(hs[1..], h, n + 1, email, skip, cookies, lookup);
    }
  }

  /** Header `i` is the first that is refused. */
  predicate RefusedAt(headers: seq<Header>, i: nat, v: Verdict, email: string, skip: bool, cookies: Cookies, lookup: Lookup) {
    && i < |headers| && v == Judge(headers[i], i, email, skip, cookies, lookup) && !Fine(v)
    && forall k :: 0 <= k < i ==> Fine(Judge(headers[k], k, email, skip, cookies, lookup))
  }

  predicate Fine(v: Verdict) { v.Pass? || v.Skip? }

  /** The loop over the headers; a refusal is reported as its verdict. */
  method FilterHeaders(headers: seq<Header>, email: string, skip: bool, cookies: Cookies, lookup: Lookup)
    returns (r: Result<seq<Header>, Verdict>)
    ensures r.Ok? <==> forall i :: 0 <= i < |headers| ==> Fine(Judge(headers[i], i, email, skip, cookies, lookup))
    ensures r.Ok? ==> r.value == Passing(headers, 0, email, skip, cookies, lookup)
    ensures r.Err? ==> (exists i :: 0 <= i < |headers| && RefusedAt(headers, i, r.error, email, skip, cookies, lookup))
  {
    hide Partition, Ascii, Owned, Hostnames.Lower;
    var kept := [];
    for i := 0 to |headers|
      invariant kept == Passing(headers[..i], 0, email, skip, cookies, lookup)
      invariant forall k :: 0 <= k < i ==> Fine(Judge(headers[k], k, email, skip, cookies, lookup))
    {
      var h := headers[i];
      assert headers[..i + 1] == headers[..i] + [h];
      PassingSnoc(headers[..i], h, 0, email, skip, cookies, lookup);
      if Hostnames.Lower(h.key) == AUTHORIZATION {
        if skip {
          continue;
        }
        if !Ascii(h.value) {
          assert RefusedAt(headers, i, Broken, email, skip, cookies, lookup);
          return Err(Broken);
        }
        var (kind, token) := Partition(h.value);
        if Hostnames.Lower(kind) != "bearer" || !Owned(lookup, i, token, email) {
          assert RefusedAt(headers, i, Stale, email, skip, cookies, lookup);
          return Err(Stale);
        }
      }
      if Hostnames.Lower(h.key) == COOKIE {
        if !Ascii(h.value) {
          assert RefusedAt(headers, i, Broken, email, skip, cookies, lookup);
          return Err(Broken);
        }
        var parsed := cookies(h.value);
        if "token" in parsed {
          if skip {
            continue;
          } else if !Owned(lookup, i, parsed["token"], email) {
            assert RefusedAt(headers, i, Stale, email, skip, cookies, lookup);
            return Err(Stale);
          }
        }
      }
      kept := kept + [h];
    }
    assert headers[..|headers|] == headers;
    r := Ok(kept);
  }

  function Others(headers: seq<Header>, cookies: Cookies): seq<Header> {
    if headers == [] then []
    else (if Carried(headers[0], cookies).None? then [headers[0]] else []) + Others(headers[1..], cookies)
  }

  lemma JudgeMeans(h: Header, n: nat, email: string, skip: bool, cookies: Cookies, lookup: Lookup)
    ensures var v, c := Judge(h, n, email, skip, cookies, lookup), Carried(h, cookies);
      && (v.Skip? ==> skip && c.Some?)
      && (v.Pass? && c.Some? ==> !skip && Owned(lookup, n, c.value, email))
  {
    hide Partition, Plausible, Ascii;
  }

  predicate AllFine(hs: seq<Header>, n: nat, email: string, skip: bool, cookies: Cookies, lookup: Lookup) {
    forall i :: 0 <= i < |hs| ==> Fine(Judge(hs[i], n + i, email, skip, cookies, lookup))
  }

  lemma AllFineTail(hs: seq<Header>, n: nat, email: string, skip: bool, cookies: Cookies, lookup: Lookup)
    requires AllFine(hs, n, email, skip, cookies, lookup) && hs != []
    ensures Fine(Judge(hs[0], n, email, skip, cookies, lookup)) && AllFine(hs[1..], n + 1, email, skip, cookies, lookup)
  {
    hide Judge, Fine;
    assert Fine(Judge(hs[0], n + 0, email, skip, cookies, lookup));
    forall i | 0 <= i < |hs[1..]| ensures Fine(Judge(hs[1..][i], n + 1 + i, email, skip, cookies, lookup)) {
      assert Fine(Judge(hs[i + 1], n + (i + 1), email, skip, cookies, lookup));
    }
  }

  ghost predicate Vetted(h: Header, email: string, cookies: Cookies, lookup: Lookup) {
    Carried(h, cookies).Some? && exists k :: Owned(lookup, k, Carried(h, cookies).value, email)
  }

  /** What passes carries no credential but the identity's own, none at all on the two paths that
      skip the check, and every other header, in the same order. */
  lemma {:induction false} FilterMeaning(hs: seq<Header>, n: nat, email: string, skip: bool, cookies: Cookies, lookup: Lookup)
    requires AllFine(hs, n, email, skip, cookies, lookup)
    ensures var out := Passing(hs, n, email, skip, cookies, lookup);
      && Others(out, cookies) == Others(hs, cookies)
      && (!skip ==> out == hs)
      && (forall h :: h in out && Carried(h, cookies).Some? ==> !skip && Vetted(h, email, cookies, lookup))
  {
    hide Judge, Carried, Owned, AllFine;
    if hs != [] {
      var rest, v := hs[1..], Judge(hs[0], n, email, skip, cookies, lookup);
      AllFineTail(hs, n, email, skip, cookies, lookup);
      FilterMeaning(rest, n + 1, email, skip, cookies, lookup);
      JudgeMeans(hs[0], n, email, skip, cookies, lookup);
      var out, whole := Passing(rest, n + 1, email, skip, cookies, lookup), Passing(hs, n, email, skip, cookies, lookup);
      assert whole == (if v.Pass? then [hs[0]] else []) + out;
      if v.Skip? {
        assert whole == out;
      } else {
        assert whole[1..] == out;
      }
    }
  }

  /** `sids` are the values of the decoded query's `sid`, or nothing for a query that does not decode. */
  datatype Scope = Scope(kind: string, path: string, method_: string, headers: seq<Header>, sids: Option<seq<string>>)

  datatype Response = Untouched | Denied | SignInAgain | Forwarded(headers: seq<Header>)

  function StripSlashes(s: string): string {
    if s != "" && s[|s| - 1] == '/' then StripSlashes(s[..|s| - 1]) else s
  }

  predicate StartsWith(s: string, prefix: string) { prefix <= s }

  /** Requests that reach the application without an identity. */
  predicate Exempt(s: Scope) {
    (s.kind != "http" && s.kind != "websocket") || (s.path == "/health" && s.method_ == "GET")
  }

  /** The two paths on which stale credentials are dropped instead of checked. */
  predicate DropsCredentials(s: Scope) {
    StripSlashes(s.path) == SIGNIN_PATH || (s.path == VERSION_PATH && s.method_ == "GET")
  }

  /** `app`; `environs` are the handshakes of the live sockets by their identifier. */
  method App(s: Scope, environs: map<string, seq<Header>>, cookies: Cookies, lookup: Lookup) returns (r: Response)
    ensures r.Untouched? <==> Exempt(s)
    ensures r.Forwarded? ==>
      && IdentityOf(s.headers).User?
      && r.headers == Passing(s.headers, 0, IdentityOf(s.headers).email, DropsCredentials(s), cookies, lookup)
      && (forall i :: 0 <= i < |s.headers| ==>
            Fine(Judge(s.headers[i], i, IdentityOf(s.headers).email, DropsCredentials(s), cookies, lookup)))
    ensures r.Forwarded? && s.kind == "websocket" ==> StripSlashes(s.path) == SOCKET_PATH
    ensures r.Forwarded? && StartsWith(s.path, "/ws/") && s.sids.Some? && |s.sids.value| > 0 ==>
      |s.sids.value| == 1 && s.sids.value[0] in environs && IdentityOf(environs[s.sids.value[0]]) == IdentityOf(s.headers)
  {
    if s.kind != "http" && s.kind != "websocket" {
      return Untouched;
    }
    if s.path == "/health" && s.method_ == "GET" {
      return Untouched;
    }
    if s.kind == "websocket" && StripSlashes(s.path) != SOCKET_PATH {
      return Denied;
    }
    var id := ReadIdentity(s.headers);
    if !id.User? || s.sids.None? {
      return Denied;
    }
    if StartsWith(s.path, "/ws/") && |s.sids.value| > 0 {
      var sid := s.sids.value[0];
      var original := if |s.sids.value| == 1 && sid in environs then environs[sid] else [];
      var first := ReadIdentity(original);
      if first != id {
        return Denied;
      }
    }
    var kept := FilterHeaders(s.headers, id.email, DropsCredentials(s), cookies, lookup);
    if kept.Err? {
      return if kept.error.Stale? then SignInAgain else Denied;
    }
    r := Forwarded(kept.value);
  }
}
