// The MCP server list and the secrets beside it (internal/mcp/store.go,
// internal/mcp/types.go): two stores that have to agree through saves, renames,
// address changes, removals and the token writes of the OAuth client.
module Connections {
  import opened Prelude
  import opened Text

  // ---- Names and ids ----

  predicate LowerOrDigit(c: char) { 'a' <= c <= 'z' || '0' <= c <= '9' }

  predicate LetterOrDigit(c: char) { LowerOrDigit(c) || 'A' <= c <= 'Z' }

  predicate NameOk(name: string) {
    && 1 <= |name| <= 48 && LowerOrDigit(name[0])
    && forall i :: 0 <= i < |name| ==> LowerOrDigit(name[i]) || name[i] == '_' || name[i] == '-'
  }

  predicate ProjectOk(project: string) {
    && project != "" && LetterOrDigit(project[0])
    && forall i :: 0 <= i < |project| ==> LetterOrDigit(project[i]) || project[i] == '_' || project[i] == '-'
  }

  const RESERVED_NAME := "omniplex"

  function ServerKey(name: string, project: string): string {
    if project == "" then name else project + "/" + name
  }

  // The key with its first slash made a dot.
  function SecretId(key: string): string {
    if key == "" then ""
    else if key[0] == '/' then "." + key[1..]
    else [key[0]] + SecretId(key[1..])
  }

  predicate ScopeOk(name: string, project: string) {
    NameOk(name) && name != RESERVED_NAME && (project == "" || ProjectOk(project))
  }

  lemma {:induction false} SecretIdOf(project: string, rest: string)
    requires forall i :: 0 <= i < |project| ==> project[i] != '/'
    ensures SecretId(project + "/" + rest) == project + "." + rest
  {
    var key := project + "/" + rest;
    if project == "" {
      assert key[1..] == rest;
      assert "" + "." + rest == "." + rest;
    } else {
      SecretIdOf(project[1..], rest);
      assert key[1..] == project[1..] + "/" + rest;
      assert project == [project[0]] + project[1..];
      assert [project[0]] + (project[1..] + "." + rest) == project + "." + rest;
    }
  }

  lemma {:induction false} SecretIdOfName(name: string)
    requires forall i :: 0 <= i < |name| ==> name[i] != '/'
    ensures SecretId(name) == name
  {
    if name != "" {
      SecretIdOfName(name[1..]);
    }
  }

  function IdOf(name: string, project: string): string { SecretId(ServerKey(name, project)) }

  lemma IdShape(name: string, project: string)
    requires ScopeOk(name, project)
    ensures IdOf(name, project) == if project == "" then name else project + "." + name
  {
    if project == "" {
      SecretIdOfName(name);
    } else {
      SecretIdOf(project, name);
    }
  }

  // An id has one dot, after its project, and none without one.
  lemma DotOf(name: string, project: string)
    requires ScopeOk(name, project)
    ensures var id := IdOf(name, project);
            && (project != "" ==> |project| < |id| && id[..|project|] == project && id[|project| + 1..] == name)
            && (project == "" ==> id == name)
            && forall i :: 0 <= i < |id| ==> (id[i] == '.' <==> project != "" && i == |project|)
  {
    IdShape(name, project);
    var id := IdOf(name, project);
    forall i | 0 <= i < |id| ensures id[i] == '.' <==> project != "" && i == |project| {
      if project == "" {
        assert LowerOrDigit(name[i]) || name[i] == '_' || name[i] == '-';
      } else if i < |project| {
        assert id[i] == project[i];
      } else if i > |project| {
        assert id[i] == name[i - |project| - 1];
      }
    }
  }

  // Different scopes have different ids, and none has the reserved one.
  lemma IdsAreDistinct(name: string, project: string, name': string, project': string)
    requires ScopeOk(name, project) && ScopeOk(name', project')
    ensures IdOf(name, project) == IdOf(name', project') ==> name == name' && project == project'
    ensures IdOf(name, project) != RESERVED_NAME
  {
    DotOf(name, project);
    DotOf(name', project');
    hide SecretId, ServerKey, NameOk, ProjectOk;
    var a := IdOf(name, project);
    if project != "" {
      assert a[|project|] == '.';
      assert forall i :: 0 <= i < |RESERVED_NAME| ==> RESERVED_NAME[i] != '.';
    }
    if a == IdOf(name', project') {
      assert project != "" ==> a[|project|] == '.';
      assert project' != "" ==> a[|project'|] == '.';
    }
  }

  // ---- The two stores ----

  // A secret's key under a server's id.
  datatype SecretKey = EnvKey(name: string) | HeaderKey(name: string) | OAuthKey | ClientKey(digest: string)

  function KeyText(key: SecretKey): string {
    match key
    case EnvKey(name) => "env." + name
    case HeaderKey(name) => "header." + name
    case OAuthKey => "oauth"
    case ClientKey(digest) => "client." + digest
  }

  // Keys are written as text; no two are written the same.
  lemma KeyTextsAreDistinct(a: SecretKey, b: SecretKey)
    ensures KeyText(a) == KeyText(b) ==> a == b
  {
    if KeyText(a) == KeyText(b) {
      assert KeyText(a)[0] == KeyText(b)[0];
      match a
      case EnvKey(name) => assert KeyText(a)[4..] == name && KeyText(b)[4..] == b.name;
      case HeaderKey(name) => assert KeyText(a)[7..] == name && KeyText(b)[7..] == b.name;
      case OAuthKey =>
      case ClientKey(digest) => assert KeyText(a)[7..] == digest && KeyText(b)[7..] == b.digest;
    }
  }

  // A value, or the record of a sign-in to the server at url.
  datatype Secret = Value(text: string) | SignIn(url: string, token: string)

  datatype Slot = Slot(id: string, key: SecretKey)

  type Secrets = map<Slot, Secret>

  function Purge(secrets: Secrets, id: string): Secrets {
    map slot | slot in secrets && slot.id != id :: secrets[slot]
  }

  datatype Server = Server(
    name: string,
    project: string,
    url: string,
    command: string,
    args: seq<string>,
    envNames: set<string>,
    headerNames: set<string>,
    off: set<string>,
    offIn: set<string>)
  {
    function Key(): string { ServerKey(name, project) }

    function Id(): string { IdOf(name, project) }
  }

  // A server as the user types it, values included.
  datatype Draft = Draft(
    name: string,
    project: string,
    url: string,
    command: string,
    args: seq<string>,
    env: map<string, string>,
    headers: map<string, string>,
    off: set<string>)

  datatype State = State(servers: seq<Server>, secrets: Secrets)

  function IndexOf(servers: seq<Server>, name: string, project: string): (i: nat)
    ensures i <= |servers|
    ensures i < |servers| ==> servers[i].name == name && servers[i].project == project
    ensures forall k :: 0 <= k < i ==> !(servers[k].name == name && servers[k].project == project)
  {
    if servers == [] then 0
    else if servers[0].name == name && servers[0].project == project then 0
    else
      assert forall k :: 0 < k < |servers| ==> servers[k] == servers[1..][k - 1];
      1 + IndexOf(servers[1..], name, project)
  }

  function CleanList(xs: set<string>): set<string> {
    set x | x in xs && TrimSpace(x) != "" :: TrimSpace(x)
  }

  predicate EnvNameOk(n: string) {
    && n != "" && (LetterOrDigit(n[0]) || n[0] == '_') && !('0' <= n[0] <= '9')
    && forall i :: 0 <= i < |n| ==> LetterOrDigit(n[i]) || n[i] == '_'
  }

  predicate HeaderNameOk(n: string) {
    n != "" && forall i :: 0 <= i < |n| ==> LetterOrDigit(n[i]) || n[i] in "!#$%&'*+.^_`|~-"
  }

  function ToLower(s: string): string {
    MapSeq((c: char) => if 'A' <= c <= 'Z' then (c as int + 32) as char else c, s)
  }

  function Trimmed(d: Draft): Draft {
    d.(name := TrimSpace(d.name), url := TrimSpace(d.url), command := TrimSpace(d.command))
  }

  // A draft's shape. isUrl says what is an http or https address.
  predicate DraftOk(d: Draft, isUrl: string -> bool) {
    && ScopeOk(d.name, d.project)
    && (d.url == "" <==> d.command != "")
    && (d.url != "" ==> isUrl(d.url) && |d.env| == 0 && d.args == [])
    && (d.url == "" ==> |d.headers| == 0)
    && (forall n :: n in d.env ==> EnvNameOk(n))
    && (forall n :: n in d.headers ==> HeaderNameOk(n))
    && (forall m, n :: m in d.headers && n in d.headers && m != n ==> ToLower(m) != ToLower(n))
  }

  function Drafted(d: Draft, offIn: set<string>): Server {
    Server(d.name, d.project, d.url, d.command, d.args, d.env.Keys, d.headers.Keys, CleanList(d.off), offIn)
  }

  // ---- What a save does to the secrets ----

  // An empty value keeps the stored one of a name that was there before.
  function Keeping(secrets: Secrets, oldId: string, key: SecretKey, value: string, had: bool): Secret {
    if value == "" && had && Slot(oldId, key) in secrets then secrets[Slot(oldId, key)] else Value(value)
  }

  // What a save stores under newId for some of the names the draft gives.
  function EnvPuts(base: Secrets, was: Option<Server>, oldId: string, newId: string, d: Draft, names: set<string>): Secrets
    requires names <= d.env.Keys
  {
    map n | n in names ::
      Slot(newId, EnvKey(n)) := Keeping(base, oldId, EnvKey(n), d.env[n], was.Some? && n in was.value.envNames)
  }

  function HeaderPuts(base: Secrets, was: Option<Server>, oldId: string, newId: string, d: Draft, names: set<string>): Secrets
    requires names <= d.headers.Keys
  {
    map n | n in names ::
      Slot(newId, HeaderKey(n)) := Keeping(base, oldId, HeaderKey(n), d.headers[n], was.Some? && n in was.value.headerNames)
  }

  function Puts(base: Secrets, was: Option<Server>, oldId: string, newId: string, d: Draft): Secrets {
    EnvPuts(base, was, oldId, newId, d, d.env.Keys) + HeaderPuts(base, was, oldId, newId, d, d.headers.Keys)
  }

  predicate KeepsSignIn(was: Option<Server>, srv: Server) {
    was.Some? && was.value.url != "" && was.value.url == srv.url
  }

  function Dropped(was: Server, srv: Server): set<Slot> {
    (set n | n in was.envNames - srv.envNames :: Slot(was.Id(), EnvKey(n))) +
    (set n | n in was.headerNames - srv.headerNames :: Slot(was.Id(), HeaderKey(n))) +
    (if KeepsSignIn(Some(was), srv) then {} else {Slot(was.Id(), OAuthKey)})
  }

  function OldId(was: Option<Server>): string { if was.Some? then was.value.Id() else SecretId("") }

  function MoveSecrets(secrets: Secrets, was: Option<Server>, srv: Server, d: Draft): Secrets {
    var oldId, newId := OldId(was), srv.Id();
    var base := if was.None? then Purge(secrets, newId) else secrets;
    var put := base + Puts(base, was, oldId, newId, d);
    if was.None? then put
    else if oldId != newId then
      var moved := if KeepsSignIn(was, srv) && Slot(oldId, OAuthKey) in base
                   then put[Slot(newId, OAuthKey) := base[Slot(oldId, OAuthKey)]] else put;
      Purge(moved, oldId)
    else put - Dropped(was.value, srv)
  }

  // ---- Operations ----

  datatype Op =
    | Save(draft: Draft, previous: string)
    | SetOff(name: string, project: string, off: set<string>)
    | SetProjectOff(name: string, projectId: string, isOff: bool)
    | Remove(name: string, project: string)
    | RemoveProject(projectId: string)
      // A token write of the OAuth client, for the server it saw under key at url.
    | WriteToken(key: string, url: string, recordUrl: string, token: string)
    | SignOut(key: string)
      // A client registration, kept under the reserved id.
    | Register(digest: string, text: string)

  predicate IsCurrent(servers: seq<Server>, key: string, url: string) {
    exists i :: 0 <= i < |servers| && servers[i].Key() == key && servers[i].url == url
  }

  predicate Refused(s: State, op: Op, isUrl: string -> bool) {
    match op
    case Save(draft, previous) =>
      var d := Trimmed(draft);
      || !DraftOk(d, isUrl)
      || (previous != "" && IndexOf(s.servers, previous, d.project) == |s.servers|)
      || (previous != d.name && IndexOf(s.servers, d.name, d.project) < |s.servers|)
    case SetOff(name, project, _) => IndexOf(s.servers, name, project) == |s.servers|
    case SetProjectOff(name, projectId, _) => !ProjectOk(projectId) || IndexOf(s.servers, name, "") == |s.servers|
    case Remove(name, project) => IndexOf(s.servers, name, project) == |s.servers|
    case RemoveProject(projectId) => !ProjectOk(projectId)
    case WriteToken(key, url, _, _) => !IsCurrent(s.servers, key, url)
    case SignOut(_) => false
    case Register(_, _) => false
  }

  // The server a save replaces, if it replaces one.
  function Replaced(s: State, d: Draft, previous: string): Option<nat> {
    var i := IndexOf(s.servers, previous, d.project);
    if previous != "" && i < |s.servers| then Some(i) else None
  }

  function AfterSave(s: State, d: Draft, previous: string): State {
    var i := Replaced(s, d, previous);
    var was := if i.Some? then Some(s.servers[i.value]) else None;
    var srv := Drafted(d, if was.Some? then was.value.offIn else {});
    State(if i.Some? then s.servers[i.value := srv] else s.servers + [srv], MoveSecrets(s.secrets, was, srv, d))
  }

  function WithoutProject(servers: seq<Server>, projectId: string): seq<Server> {
    if servers == [] then []
    else
      var last := servers[|servers| - 1];
      WithoutProject(servers[..|servers| - 1], projectId) +
      if last.project == projectId then [] else [last.(offIn := last.offIn - {projectId})]
  }

  function PurgeProject(secrets: Secrets, servers: seq<Server>, projectId: string): Secrets {
    if servers == [] then secrets
    else
      var last := servers[|servers| - 1];
      var rest := PurgeProject(secrets, servers[..|servers| - 1], projectId);
      if last.project == projectId then Purge(rest, last.Id()) else rest
  }

  function After(s: State, op: Op, isUrl: string -> bool): State {
    if Refused(s, op, isUrl) then s
    else
      match op
      case Save(draft, previous) => AfterSave(s, Trimmed(draft), previous)
      case SetOff(name, project, off) =>
        var i := IndexOf(s.servers, name, project);
        s.(servers := s.servers[i := s.servers[i].(off := CleanList(off))])
      case SetProjectOff(name, projectId, isOff) =>
        var i := IndexOf(s.servers, name, "");
        var offIn := s.servers[i].offIn - {projectId};
        s.(servers := s.servers[i := s.servers[i].(offIn := CleanList(if isOff then offIn + {projectId} else offIn))])
      case Remove(name, project) =>
        var i := IndexOf(s.servers, name, project);
        State(s.servers[..i] + s.servers[i + 1..], Purge(s.secrets, s.servers[i].Id()))
      case RemoveProject(projectId) =>
        State(WithoutProject(s.servers, projectId), PurgeProject(s.secrets, s.servers, projectId))
      case WriteToken(key, url, recordUrl, token) =>
        s.(secrets := s.secrets[Slot(SecretId(key), OAuthKey) := SignIn(recordUrl, token)])
      case SignOut(key) => s.(secrets := s.secrets - {Slot(SecretId(key), OAuthKey)})
      case Register(digest, text) => s.(secrets := s.secrets[Slot(RESERVED_NAME, ClientKey(digest)) := Value(text)])
  }

  // ---- The invariant ----

  predicate ScopesOk(servers: seq<Server>) {
    && (forall i :: 0 <= i < |servers| ==> ScopeOk(servers[i].name, servers[i].project))
    && (forall i, j :: 0 <= i < j < |servers| ==> servers[i].name != servers[j].name || servers[i].project != servers[j].project)
  }

  // A secret a server may have under its id: a value it lists, or the record of
  // a sign-in at its address. Addresses are compared by their origin; with the
  // identity for origin they are compared whole.
  predicate MayHold(x: Server, key: SecretKey, v: Secret, origin: string -> string) {
    match key
    case EnvKey(n) => n in x.envNames && v.Value?
    case HeaderKey(n) => n in x.headerNames && v.Value?
    case OAuthKey => v.SignIn? && x.url != "" && origin(v.url) == origin(x.url)
    case ClientKey(_) => false
  }

  // A secret for every name it lists.
  predicate HoldsAll(x: Server, secrets: Secrets) {
    && (forall n :: n in x.envNames ==> Slot(x.Id(), EnvKey(n)) in secrets)
    && (forall n :: n in x.headerNames ==> Slot(x.Id(), HeaderKey(n)) in secrets)
  }

  predicate HoldsOnly(x: Server, secrets: Secrets, origin: string -> string) {
    forall slot :: slot in secrets && slot.id == x.Id() ==> MayHold(x, slot.key, secrets[slot], origin)
  }

  // Nothing sits under an id but a server's or, for registrations, the
  // reserved one.
  predicate NoStrays(servers: seq<Server>, secrets: Secrets) {
    forall slot :: slot in secrets ==>
      (slot.id == RESERVED_NAME && slot.key.ClientKey?) || exists i :: 0 <= i < |servers| && servers[i].Id() == slot.id
  }

  // Every secret under an id outside ids is in both alike.
  ghost predicate SameBut(a: Secrets, b: Secrets, ids: set<string>) {
    forall slot: Slot :: slot.id !in ids ==> (slot in a <==> slot in b) && (slot in a ==> a[slot] == b[slot])
  }

  predicate Inv(s: State, origin: string -> string) {
    && ScopesOk(s.servers) && NoStrays(s.servers, s.secrets)
    && (forall i :: 0 <= i < |s.servers| ==> HoldsAll(s.servers[i], s.secrets))
    && (forall i :: 0 <= i < |s.servers| ==> HoldsOnly(s.servers[i], s.secrets, origin))
  }

  // ---- A save ----

  predicate Drafts(srv: Server, d: Draft) { srv.envNames == d.env.Keys && srv.headerNames == d.headers.Keys }

  lemma PutsAt(secrets: Secrets, was: Option<Server>, oldId: string, newId: string, d: Draft, slot: Slot, origin: string -> string)
    requires was.Some? ==> was.value.Id() == oldId && HoldsOnly(was.value, secrets, origin)
    ensures var r := Puts(secrets, was, oldId, newId, d);
            && (slot in r <==> slot.id == newId && match slot.key
                                                   case EnvKey(n) => n in d.env
                                                   case HeaderKey(n) => n in d.headers
                                                   case _ => false)
            && (slot in r ==> r[slot].Value?)
  {
    hide IdOf;
  }

  // What the new server's id holds after its secrets have moved, and what else
  // changed: nothing but that the old id is empty.
  lemma MovedNew(secrets: Secrets, srv: Server, d: Draft, origin: string -> string)
    requires Drafts(srv, d)
    ensures var r := MoveSecrets(secrets, None, srv, d);
            HoldsAll(srv, r) && HoldsOnly(srv, r, origin) && SameBut(secrets, r, {srv.Id()})
  {
    hide IdOf, Puts;
    forall slot: Slot {
      PutsAt(Purge(secrets, srv.Id()), None, OldId(None), srv.Id(), d, slot, origin);
    }
  }

  lemma DroppedAt(was: Server, srv: Server, slot: Slot)
    ensures slot in Dropped(was, srv) <==> slot.id == was.Id() && match slot.key
                                                                  case EnvKey(n) => n in was.envNames && n !in srv.envNames
                                                                  case HeaderKey(n) => n in was.headerNames && n !in srv.headerNames
                                                                  case OAuthKey => !KeepsSignIn(Some(was), srv)
                                                                  case ClientKey(_) => false
  {
    hide IdOf, KeepsSignIn;
  }

  lemma MovedInPlace(secrets: Secrets, was: Server, srv: Server, d: Draft)
    requires was.Id() == srv.Id()
    ensures MoveSecrets(secrets, Some(was), srv, d) == secrets + Puts(secrets, Some(was), was.Id(), srv.Id(), d) - Dropped(was, srv)
  {
    hide IdOf, Puts, Dropped;
  }

  lemma MovedSameAt(secrets: Secrets, was: Server, srv: Server, d: Draft, slot: Slot, origin: string -> string)
    requires Drafts(srv, d) && HoldsAll(was, secrets) && HoldsOnly(was, secrets, origin) && was.Id() == srv.Id()
    ensures var r := MoveSecrets(secrets, Some(was), srv, d);
            && (slot.id != srv.Id() ==> (slot in r <==> slot in secrets) && (slot in r ==> r[slot] == secrets[slot]))
            && (slot.id == srv.Id() && slot in r ==> MayHold(srv, slot.key, r[slot], origin))
            && (slot.id == srv.Id() && slot.key.EnvKey? && slot.key.name in srv.envNames ==> slot in r)
            && (slot.id == srv.Id() && slot.key.HeaderKey? && slot.key.name in srv.headerNames ==> slot in r)
  {
    PutsAt(secrets, Some(was), was.Id(), srv.Id(), d, slot, origin);
    DroppedAt(was, srv, slot);
    MovedInPlace(secrets, was, srv, d);
    hide IdOf, Puts, Dropped, HoldsAll, MoveSecrets;
  }

  lemma MovedSame(secrets: Secrets, was: Server, srv: Server, d: Draft, origin: string -> string)
    requires Drafts(srv, d) && HoldsAll(was, secrets) && HoldsOnly(was, secrets, origin) && was.Id() == srv.Id()
    ensures var r := MoveSecrets(secrets, Some(was), srv, d);
            HoldsAll(srv, r) && HoldsOnly(srv, r, origin) && SameBut(secrets, r, {srv.Id()})
  {
    hide IdOf, MoveSecrets, MayHold;
    forall slot: Slot {
      MovedSameAt(secrets, was, srv, d, slot, origin);
    }
  }

  lemma MovedRenamed(secrets: Secrets, was: Server, srv: Server, d: Draft, origin: string -> string)
    requires Drafts(srv, d) && HoldsAll(was, secrets) && HoldsOnly(was, secrets, origin) && was.Id() != srv.Id()
    requires forall slot :: slot in secrets ==> slot.id != srv.Id()
    ensures var r := MoveSecrets(secrets, Some(was), srv, d);
            && HoldsAll(srv, r) && HoldsOnly(srv, r, origin)
            && (forall slot :: slot in r ==> slot.id != was.Id())
            && SameBut(secrets, r, {srv.Id(), was.Id()})
  {
    hide IdOf, Puts;
    forall slot: Slot {
      PutsAt(secrets, Some(was), was.Id(), srv.Id(), d, slot, origin);
    }
  }

  // ---- Every operation keeps the invariant ----

  lemma OtherIds(servers: seq<Server>, i: nat, j: nat)
    requires ScopesOk(servers) && i < |servers| && j < |servers|
    ensures i != j ==> servers[i].Id() != servers[j].Id()
    ensures servers[i].Id() != RESERVED_NAME
  {
    IdsAreDistinct(servers[i].name, servers[i].project, servers[j].name, servers[j].project);
    hide IdOf, ScopeOk;
  }

  // No server has the id of a scope that no server has.
  lemma NewId(servers: seq<Server>, name: string, project: string)
    requires ScopesOk(servers) && ScopeOk(name, project) && IndexOf(servers, name, project) == |servers|
    ensures forall i :: 0 <= i < |servers| ==> servers[i].Id() != IdOf(name, project)
    ensures IdOf(name, project) != RESERVED_NAME
  {
    IdsAreDistinct(name, project, name, project);
    forall i | 0 <= i < |servers| ensures servers[i].Id() != IdOf(name, project) {
      IdsAreDistinct(servers[i].name, servers[i].project, name, project);
      hide IdOf, ScopeOk;
    }
  }

  lemma Untouched(x: Server, a: Secrets, b: Secrets, ids: set<string>, origin: string -> string)
    requires SameBut(a, b, ids) && x.Id() !in ids
    ensures HoldsAll(x, a) ==> HoldsAll(x, b)
    ensures HoldsOnly(x, a, origin) ==> HoldsOnly(x, b, origin)
  {
    hide IdOf, MayHold;
    assert forall slot: Slot :: slot.id == x.Id() ==> (slot in a <==> slot in b) && (slot in a ==> a[slot] == b[slot]);
  }

  // What a changed server and the secrets under its old and new id have to
  // satisfy for the invariant to stay.
  lemma ReplacedKeeps(s: State, i: nat, srv: Server, secrets: Secrets, origin: string -> string)
    requires Inv(s, origin) && i < |s.servers| && ScopeOk(srv.name, srv.project)
    requires forall k :: 0 <= k < |s.servers| && k != i ==> s.servers[k].name != srv.name || s.servers[k].project != srv.project
    requires HoldsAll(srv, secrets) && HoldsOnly(srv, secrets, origin)
    requires SameBut(s.secrets, secrets, {srv.Id(), s.servers[i].Id()})
    requires srv.Id() != s.servers[i].Id() ==> forall slot :: slot in secrets ==> slot.id != s.servers[i].Id()
    ensures Inv(State(s.servers[i := srv], secrets), origin)
  {
    var t := s.servers[i := srv];
    assert ScopesOk(t) by { hide ScopeOk, IdOf; }
    forall k | 0 <= k < |t| && k != i ensures HoldsAll(t[k], secrets) && HoldsOnly(t[k], secrets, origin) {
      OtherIds(t, k, i);
      OtherIds(s.servers, k, i);
      Untouched(t[k], s.secrets, secrets, {srv.Id(), s.servers[i].Id()}, origin);
    }
    assert NoStrays(t, secrets) by { ReplacedNoStrays(s, i, srv, secrets, origin); }
    hide IdOf, ScopeOk, HoldsAll, HoldsOnly, SameBut, NoStrays, ScopesOk;
  }

  lemma ReplacedNoStrays(s: State, i: nat, srv: Server, secrets: Secrets, origin: string -> string)
    requires Inv(s, origin) && i < |s.servers|
    requires SameBut(s.secrets, secrets, {srv.Id(), s.servers[i].Id()})
    requires srv.Id() != s.servers[i].Id() ==> forall slot :: slot in secrets ==> slot.id != s.servers[i].Id()
    ensures NoStrays(s.servers[i := srv], secrets)
  {
    hide IdOf, ScopeOk, HoldsAll, HoldsOnly, ScopesOk;
    var t := s.servers[i := srv];
    assert t[i].Id() == srv.Id();
    forall slot | slot in secrets && !(slot.id == RESERVED_NAME && slot.key.ClientKey?)
      ensures exists k :: 0 <= k < |t| && t[k].Id() == slot.id
    {
      if slot.id != srv.Id() {
        assert slot.id != s.servers[i].Id();
        assert slot in s.secrets;
        var k :| 0 <= k < |s.servers| && s.servers[k].Id() == slot.id;
        assert t[k] == s.servers[k];
      }
    }
  }

  lemma AppendedKeeps(s: State, srv: Server, secrets: Secrets, origin: string -> string)
    requires Inv(s, origin) && ScopeOk(srv.name, srv.project)
    requires IndexOf(s.servers, srv.name, srv.project) == |s.servers|
    requires HoldsAll(srv, secrets) && HoldsOnly(srv, secrets, origin)
    requires SameBut(s.secrets, secrets, {srv.Id()})
    ensures Inv(State(s.servers + [srv], secrets), origin)
  {
    var t := s.servers + [srv];
    assert ScopesOk(t) by { hide ScopeOk, IdOf; }
    NewId(s.servers, srv.name, srv.project);
    hide IdOf, ScopeOk, ScopesOk, IndexOf;
    forall k | 0 <= k < |s.servers| ensures HoldsAll(t[k], secrets) && HoldsOnly(t[k], secrets, origin) {
      Untouched(t[k], s.secrets, secrets, {srv.Id()}, origin);
    }
    hide HoldsAll, HoldsOnly, SameBut, NoStrays;
    AppendedNoStrays(s, srv, secrets, origin);
  }

  lemma AppendedNoStrays(s: State, srv: Server, secrets: Secrets, origin: string -> string)
    requires Inv(s, origin) && SameBut(s.secrets, secrets, {srv.Id()})
    ensures NoStrays(s.servers + [srv], secrets)
  {
    hide IdOf, ScopeOk, ScopesOk, HoldsAll, HoldsOnly;
    var t := s.servers + [srv];
    assert t[|s.servers|].Id() == srv.Id();
    forall slot | slot in secrets && !(slot.id == RESERVED_NAME && slot.key.ClientKey?)
      ensures exists k :: 0 <= k < |t| && t[k].Id() == slot.id
    {
      if slot.id != srv.Id() {
        assert slot in s.secrets;
        var k :| 0 <= k < |s.servers| && s.servers[k].Id() == slot.id;
        assert t[k] == s.servers[k];
      }
    }
  }

  lemma SaveKeeps(s: State, d: Draft, previous: string, isUrl: string -> bool, origin: string -> string)
    requires Inv(s, origin) && DraftOk(d, isUrl)
    requires previous != "" ==> IndexOf(s.servers, previous, d.project) < |s.servers|
    requires previous != d.name ==> IndexOf(s.servers, d.name, d.project) == |s.servers|
    ensures Inv(AfterSave(s, d, previous), origin)
  {
    var i := Replaced(s, d, previous);
    if i.None? {
      MovedNew(s.secrets, Drafted(d, {}), d, origin);
      AppendedKeeps(s, Drafted(d, {}), MoveSecrets(s.secrets, None, Drafted(d, {}), d), origin);
    } else {
      var was := s.servers[i.value];
      var srv := Drafted(d, was.offIn);
      if previous == d.name {
        MovedSame(s.secrets, was, srv, d, origin);
      } else {
        NewId(s.servers, d.name, d.project);
        MovedRenamed(s.secrets, was, srv, d, origin);
      }
      hide MoveSecrets, IdOf, HoldsAll, HoldsOnly, NoStrays;
      ReplacedKeeps(s, i.value, srv, MoveSecrets(s.secrets, Some(was), srv, d), origin);
    }
  }

  lemma SameShapeHolds(x: Server, y: Server, secrets: Secrets, origin: string -> string)
    requires SameShape(x, y) && HoldsAll(x, secrets) && HoldsOnly(x, secrets, origin)
    ensures HoldsAll(y, secrets) && HoldsOnly(y, secrets, origin)
  {
    assert x.Id() == y.Id();
    hide IdOf;
  }

  // A change to a server that leaves its scope, its address and its names.
  lemma SwitchedKeeps(s: State, i: nat, srv: Server, origin: string -> string)
    requires Inv(s, origin) && i < |s.servers|
    requires srv == s.servers[i].(off := srv.off, offIn := srv.offIn)
    ensures Inv(State(s.servers[i := srv], s.secrets), origin)
  {
    assert srv.Id() == s.servers[i].Id();
    SameShapeHolds(s.servers[i], srv, s.secrets, origin);
    hide IdOf, HoldsAll, HoldsOnly, NoStrays, ScopeOk;
    ReplacedKeeps(s, i, srv, s.secrets, origin);
  }

  lemma RemainsOf(servers: seq<Server>, y: Server, gone: set<string>) returns (j: nat)
    requires Remains(servers, y, gone)
    ensures j < |servers| && SameShape(servers[j], y) && y.Id() !in gone
  {
    hide IdOf, SameShape;
    j :| 0 <= j < |servers| && SameShape(servers[j], y);
  }

  // Servers that go, with everything under their ids, leave the rest intact.
  lemma FewerKeeps(s: State, servers: seq<Server>, secrets: Secrets, gone: set<string>, origin: string -> string)
    requires Inv(s, origin) && ScopesOk(servers)
    requires forall k :: 0 <= k < |servers| ==> Remains(s.servers, servers[k], gone)
    requires forall j :: 0 <= j < |s.servers| ==> s.servers[j].Id() in gone || HasId(servers, s.servers[j].Id())
    requires SameBut(s.secrets, secrets, gone)
    requires forall slot :: slot in secrets ==> slot.id !in gone
    ensures Inv(State(servers, secrets), origin)
  {
    hide HoldsAll, HoldsOnly, IdOf, ScopesOk, Remains, SameShape;
    forall k | 0 <= k < |servers| ensures HoldsAll(servers[k], secrets) && HoldsOnly(servers[k], secrets, origin) {
      assert Remains(s.servers, servers[k], gone);
      var j := RemainsOf(s.servers, servers[k], gone);
      assert HoldsAll(s.servers[j], s.secrets) && HoldsOnly(s.servers[j], s.secrets, origin);
      SameShapeHolds(s.servers[j], servers[k], s.secrets, origin);
      Untouched(servers[k], s.secrets, secrets, gone, origin);
    }
    forall slot | slot in secrets && !(slot.id == RESERVED_NAME && slot.key.ClientKey?)
      ensures exists k :: 0 <= k < |servers| && servers[k].Id() == slot.id
    {
      assert slot in s.secrets;
      var j :| 0 <= j < |s.servers| && s.servers[j].Id() == slot.id;
      assert HasId(servers, s.servers[j].Id());
    }
  }

  predicate SameShape(x: Server, y: Server) { y == x.(off := y.off, offIn := y.offIn) }

  predicate HasId(servers: seq<Server>, id: string) { exists k :: 0 <= k < |servers| && servers[k].Id() == id }

  predicate Remains(servers: seq<Server>, y: Server, gone: set<string>) {
    y.Id() !in gone && exists j :: 0 <= j < |servers| && SameShape(servers[j], y)
  }

  lemma OneFewerScopes(servers: seq<Server>, i: nat)
    requires ScopesOk(servers) && i < |servers|
    ensures ScopesOk(servers[..i] + servers[i + 1..])
  {
    hide ScopeOk;
    var t := servers[..i] + servers[i + 1..];
    assert forall k :: 0 <= k < |t| ==> t[k] == servers[if k < i then k else k + 1];
  }

  lemma PurgedElsewhere(secrets: Secrets, id: string)
    ensures SameBut(secrets, Purge(secrets, id), {id})
    ensures forall slot :: slot in Purge(secrets, id) ==> slot.id != id
  {
  }

  function WithoutAt(servers: seq<Server>, i: nat): seq<Server>
    requires i < |servers|
  {
    servers[..i] + servers[i + 1..]
  }

  lemma WithoutAtRemains(servers: seq<Server>, i: nat, k: nat)
    requires ScopesOk(servers) && i < |servers| && k < |servers| - 1
    ensures Remains(servers, WithoutAt(servers, i)[k], {servers[i].Id()})
  {
    var j := if k < i then k else k + 1;
    OtherIds(servers, j, i);
    hide IdOf, ScopesOk;
    assert SameShape(servers[j], WithoutAt(servers, i)[k]);
  }

  lemma WithoutAtHasId(servers: seq<Server>, i: nat, j: nat)
    requires i < |servers| && j < |servers|
    ensures servers[j].Id() == servers[i].Id() || HasId(WithoutAt(servers, i), servers[j].Id())
  {
    hide IdOf;
    if j != i {
      var k := if j < i then j else j - 1;
      assert WithoutAt(servers, i)[k] == servers[j];
    }
  }

  lemma RemoveKeeps(s: State, i: nat, origin: string -> string)
    requires Inv(s, origin) && i < |s.servers|
    ensures Inv(State(s.servers[..i] + s.servers[i + 1..], Purge(s.secrets, s.servers[i].Id())), origin)
  {
    var t, id := WithoutAt(s.servers, i), s.servers[i].Id();
    OneFewerScopes(s.servers, i);
    PurgedElsewhere(s.secrets, id);
    hide IdOf, HoldsAll, HoldsOnly, ScopesOk, NoStrays, SameBut, Purge, Remains, HasId;
    forall k | 0 <= k < |t| ensures Remains(s.servers, t[k], {id}) {
      WithoutAtRemains(s.servers, i, k);
    }
    forall j | 0 <= j < |s.servers| ensures s.servers[j].Id() in {id} || HasId(t, s.servers[j].Id()) {
      WithoutAtHasId(s.servers, i, j);
    }
    hide Inv;
    FewerKeeps(s, t, Purge(s.secrets, id), {id}, origin);
  }

  function IdsIn(servers: seq<Server>, projectId: string): set<string> {
    set i | 0 <= i < |servers| && servers[i].project == projectId :: servers[i].Id()
  }

  lemma {:induction false} PurgedProject(secrets: Secrets, servers: seq<Server>, projectId: string)
    ensures var r := PurgeProject(secrets, servers, projectId);
            && SameBut(secrets, r, IdsIn(servers, projectId))
            && forall slot :: slot in r ==> slot.id !in IdsIn(servers, projectId)
  {
    hide IdOf;
    if servers != [] {
      var n := |servers| - 1;
      PurgedProject(secrets, servers[..n], projectId);
      assert forall i :: 0 <= i < n ==> servers[..n][i] == servers[i];
      assert IdsIn(servers, projectId) ==
             IdsIn(servers[..n], projectId) + if servers[n].project == projectId then {servers[n].Id()} else {};
    }
  }

  predicate Kept(servers: seq<Server>, projectId: string, y: Server) {
    y.project != projectId && exists j :: 0 <= j < |servers| && SameShape(servers[j], y)
  }

  predicate InList(servers: seq<Server>, x: Server) { exists k :: 0 <= k < |servers| && SameShape(x, servers[k]) }

  lemma {:induction false} KeptIsListed(servers: seq<Server>, projectId: string, k: nat)
    requires k < |WithoutProject(servers, projectId)|
    ensures Kept(servers, projectId, WithoutProject(servers, projectId)[k])
  {
    var n := |servers| - 1;
    var init := WithoutProject(servers[..n], projectId);
    if k < |init| {
      KeptIsListed(servers[..n], projectId, k);
      var j :| 0 <= j < n && SameShape(servers[..n][j], init[k]);
      assert servers[..n][j] == servers[j];
    } else {
      assert SameShape(servers[n], WithoutProject(servers, projectId)[k]);
    }
  }

  lemma {:induction false} OthersAreKept(servers: seq<Server>, projectId: string, j: nat)
    requires j < |servers| && servers[j].project != projectId
    ensures InList(WithoutProject(servers, projectId), servers[j])
  {
    var n := |servers| - 1;
    var init := WithoutProject(servers[..n], projectId);
    if j < n {
      OthersAreKept(servers[..n], projectId, j);
      var k :| 0 <= k < |init| && SameShape(servers[j], init[k]);
      assert WithoutProject(servers, projectId)[k] == init[k];
    } else {
      assert WithoutProject(servers, projectId)[|init|] == servers[n].(offIn := servers[n].offIn - {projectId});
    }
  }

  lemma {:induction false} KeptScopesOk(servers: seq<Server>, projectId: string)
    requires ScopesOk(servers)
    ensures ScopesOk(WithoutProject(servers, projectId))
  {
    hide ScopeOk;
    if servers != [] {
      var n := |servers| - 1;
      var init := WithoutProject(servers[..n], projectId);
      KeptScopesOk(servers[..n], projectId);
      forall k | 0 <= k < |init| ensures init[k].name != servers[n].name || init[k].project != servers[n].project {
        KeptIsListed(servers[..n], projectId, k);
        var j :| 0 <= j < n && SameShape(servers[..n][j], init[k]);
        assert servers[..n][j] == servers[j];
      }
    }
  }

  lemma KeptRemain(servers: seq<Server>, projectId: string)
    requires ScopesOk(servers)
    ensures var r := WithoutProject(servers, projectId);
            forall k :: 0 <= k < |r| ==> Remains(servers, r[k], IdsIn(servers, projectId))
  {
    KeptScopesOk(servers, projectId);
    var r := WithoutProject(servers, projectId);
    hide WithoutProject, ScopeOk, SameShape;
    forall k | 0 <= k < |r| ensures Remains(servers, r[k], IdsIn(servers, projectId)) {
      KeptIsListed(servers, projectId, k);
      forall i | 0 <= i < |servers| && servers[i].project == projectId ensures servers[i].Id() != r[k].Id() {
        IdsAreDistinct(servers[i].name, projectId, r[k].name, r[k].project);
        hide IdOf;
      }
    }
  }

  lemma RemoveProjectKeeps(s: State, projectId: string, origin: string -> string)
    requires Inv(s, origin)
    ensures Inv(State(WithoutProject(s.servers, projectId), PurgeProject(s.secrets, s.servers, projectId)), origin)
  {
    hide WithoutProject, PurgeProject, NoStrays, HoldsAll, HoldsOnly, IdOf, ScopeOk, SameBut, Remains;
    KeptScopesOk(s.servers, projectId);
    KeptRemain(s.servers, projectId);
    PurgedProject(s.secrets, s.servers, projectId);
    var t := WithoutProject(s.servers, projectId);
    var gone := IdsIn(s.servers, projectId);
    forall j | 0 <= j < |s.servers| ensures s.servers[j].Id() in gone || HasId(t, s.servers[j].Id()) {
      if s.servers[j].project != projectId {
        OthersAreKept(s.servers, projectId, j);
        var k :| 0 <= k < |t| && SameShape(s.servers[j], t[k]);
        assert t[k].Id() == s.servers[j].Id();
      }
    }
    FewerKeeps(s, t, PurgeProject(s.secrets, s.servers, projectId), gone, origin);
  }

  // A token write the guard lets through keeps the invariant exactly when the
  // record is of an address with the server's origin.
  lemma TokenWriteKeeps(s: State, key: string, url: string, recordUrl: string, token: string, origin: string -> string)
    requires Inv(s, origin) && IsCurrent(s.servers, key, url)
    ensures Inv(s.(secrets := s.secrets[Slot(SecretId(key), OAuthKey) := SignIn(recordUrl, token)]), origin) <==>
            url != "" && origin(recordUrl) == origin(url)
  {
    var i :| 0 <= i < |s.servers| && s.servers[i].Key() == key && s.servers[i].url == url;
    assert s.servers[i].Id() == SecretId(key);
    var slot := Slot(SecretId(key), OAuthKey);
    var secrets := s.secrets[slot := SignIn(recordUrl, token)];
    if url != "" && origin(recordUrl) == origin(url) {
      TokenHeld(s, i, recordUrl, token, origin);
      assert s.servers[i := s.servers[i]] == s.servers;
      hide IdOf, SecretId, HoldsAll, HoldsOnly, NoStrays, ScopeOk;
      ReplacedKeeps(s, i, s.servers[i], secrets, origin);
    } else {
      hide IdOf, SecretId, HoldsAll, NoStrays, ScopesOk;
      assert slot in secrets && slot.id == s.servers[i].Id();
      assert !HoldsOnly(s.servers[i], secrets, origin);
    }
  }

  lemma TokenHeld(s: State, i: nat, recordUrl: string, token: string, origin: string -> string)
    requires Inv(s, origin) && i < |s.servers|
    requires s.servers[i].url != "" && origin(recordUrl) == origin(s.servers[i].url)
    ensures var x := s.servers[i];
            var secrets := s.secrets[Slot(x.Id(), OAuthKey) := SignIn(recordUrl, token)];
            && HoldsAll(x, secrets) && HoldsOnly(x, secrets, origin) && SameBut(s.secrets, secrets, {x.Id()})
            && ScopeOk(x.name, x.project)
            && (forall k :: 0 <= k < |s.servers| && k != i ==> s.servers[k].name != x.name || s.servers[k].project != x.project)
  {
    hide IdOf, ScopeOk, NoStrays;
    var x := s.servers[i];
    assert HoldsAll(x, s.secrets) && HoldsOnly(x, s.secrets, origin);
  }

  lemma SignOutKeeps(s: State, slot: Slot, origin: string -> string)
    requires Inv(s, origin) && slot.key == OAuthKey
    ensures Inv(s.(secrets := s.secrets - {slot}), origin)
  {
    hide IdOf, ScopesOk, MayHold;
  }

  lemma RegisterKeeps(s: State, digest: string, text: string, origin: string -> string)
    requires Inv(s, origin)
    ensures Inv(s.(secrets := s.secrets[Slot(RESERVED_NAME, ClientKey(digest)) := Value(text)]), origin)
  {
    forall i | 0 <= i < |s.servers| ensures s.servers[i].Id() != RESERVED_NAME {
      OtherIds(s.servers, i, i);
    }
    hide IdOf, ScopesOk, MayHold;
  }

  // A token write's record is of an address with the server's origin.
  predicate AtAddress(op: Op, origin: string -> string) {
    op.WriteToken? ==> op.url != "" && origin(op.recordUrl) == origin(op.url)
  }

  lemma StepKeeps(s: State, op: Op, isUrl: string -> bool, origin: string -> string)
    requires Inv(s, origin) && AtAddress(op, origin)
    ensures Inv(After(s, op, isUrl), origin)
  {
    if !Refused(s, op, isUrl) {
      hide Inv, DraftOk, NameOk, ProjectOk, CleanList, WithoutProject, PurgeProject, Purge, AfterSave;
      match op
      case Save(draft, previous) =>
        SaveKeeps(s, Trimmed(draft), previous, isUrl, origin);
      case SetOff(name, project, off) =>
        var i := IndexOf(s.servers, name, project);
        SwitchedKeeps(s, i, s.servers[i].(off := CleanList(off)), origin);
      case SetProjectOff(name, projectId, isOff) =>
        var i := IndexOf(s.servers, name, "");
        var offIn := s.servers[i].offIn - {projectId};
        SwitchedKeeps(s, i, s.servers[i].(offIn := CleanList(if isOff then offIn + {projectId} else offIn)), origin);
      case Remove(name, project) =>
        RemoveKeeps(s, IndexOf(s.servers, name, project), origin);
      case RemoveProject(projectId) =>
        RemoveProjectKeeps(s, projectId, origin);
      case WriteToken(key, url, recordUrl, token) =>
        TokenWriteKeeps(s, key, url, recordUrl, token, origin);
      case SignOut(key) =>
        SignOutKeeps(s, Slot(SecretId(key), OAuthKey), origin);
      case Register(digest, text) =>
        RegisterKeeps(s, digest, text, origin);
    }
  }

  const EMPTY := State([], map[])

  function Run(ops: seq<Op>, isUrl: string -> bool): State {
    if ops == [] then EMPTY else After(Run(ops[..|ops| - 1], isUrl), ops[|ops| - 1], isUrl)
  }

  // The two stores agree after every run.
  lemma {:induction false} StoresAgree(ops: seq<Op>, isUrl: string -> bool, origin: string -> string)
    requires forall op :: op in ops ==> AtAddress(op, origin)
    ensures Inv(Run(ops, isUrl), origin)
  {
    if ops != [] {
      var n := |ops| - 1;
      StoresAgree(ops[..n], isUrl, origin);
      assert ops[n] in ops;
      hide Inv, After, AtAddress;
      StepKeeps(Run(ops[..n], isUrl), ops[n], isUrl, origin);
    }
  }

  // How a record comes to be written: a sign-in's is of the address it was for,
  // a refresh's is one it read, at some moment before, while that had the
  // server's origin.
  ghost predicate Comes(ops: seq<Op>, i: nat, isUrl: string -> bool, origin: string -> string)
    requires i < |ops|
  {
    ops[i].WriteToken? ==>
      ops[i].url != "" &&
      (ops[i].recordUrl == ops[i].url || exists j :: 0 <= j <= i && Reads(Run(ops[..j], isUrl), ops[i], origin))
  }

  predicate Reads(s: State, op: Op, origin: string -> string) {
    && op.WriteToken? && Slot(SecretId(op.key), OAuthKey) in s.secrets
    && var rec := s.secrets[Slot(SecretId(op.key), OAuthKey)];
       rec.SignIn? && rec.url == op.recordUrl && origin(rec.url) == origin(op.url)
  }

  // So the stores agree over every run of the code.
  lemma CodeKeepsStores(ops: seq<Op>, isUrl: string -> bool, origin: string -> string)
    requires forall i :: 0 <= i < |ops| ==> Comes(ops, i, isUrl, origin)
    ensures Inv(Run(ops, isUrl), origin)
  {
    forall op | op in ops ensures AtAddress(op, origin) {
      var i :| 0 <= i < |ops| && ops[i] == op;
      assert Comes(ops, i, isUrl, origin);
      hide Run, SecretId;
    }
    hide Inv, Run, AtAddress, Comes;
    StoresAgree(ops, isUrl, origin);
  }

  // ---- What a save stores, and what it leaves ----

  // What a server's id holds under key, for a name the draft gives value to: an
  // empty value keeps the stored one, even across a rename.
  ghost predicate Stores(r: Secrets, secrets: Secrets, was: Option<Server>, id: string, key: SecretKey, value: string, had: bool)
    requires was.Some? && had ==> Slot(was.value.Id(), key) in secrets
  {
    && Slot(id, key) in r
    && r[Slot(id, key)] == if value == "" && was.Some? && had then secrets[Slot(was.value.Id(), key)] else Value(value)
  }

  lemma SavedEnv(secrets: Secrets, was: Option<Server>, srv: Server, d: Draft, n: string)
    requires Drafts(srv, d) && n in d.env
    requires was.Some? ==> HoldsAll(was.value, secrets)
    ensures Stores(MoveSecrets(secrets, was, srv, d), secrets, was, srv.Id(), EnvKey(n), d.env[n],
                   was.Some? && n in was.value.envNames)
  {
    hide IdOf;
  }

  lemma SavedHeader(secrets: Secrets, was: Option<Server>, srv: Server, d: Draft, n: string)
    requires Drafts(srv, d) && n in d.headers
    requires was.Some? ==> HoldsAll(was.value, secrets)
    ensures Stores(MoveSecrets(secrets, was, srv, d), secrets, was, srv.Id(), HeaderKey(n), d.headers[n],
                   was.Some? && n in was.value.headerNames)
  {
    hide IdOf;
  }

  // The sign-in stays exactly when the address does.
  lemma SavedSignIn(secrets: Secrets, was: Option<Server>, srv: Server, d: Draft)
    requires was.Some? && was.value.Id() != srv.Id() ==> forall slot :: slot in secrets ==> slot.id != srv.Id()
    ensures var r := MoveSecrets(secrets, was, srv, d);
            && (Slot(srv.Id(), OAuthKey) in r <==> KeepsSignIn(was, srv) && Slot(was.value.Id(), OAuthKey) in secrets)
            && (Slot(srv.Id(), OAuthKey) in r ==> r[Slot(srv.Id(), OAuthKey)] == secrets[Slot(was.value.Id(), OAuthKey)])
  {
    hide IdOf;
  }

  // The ids an operation may touch the secrets of.
  function Touched(s: State, op: Op): set<string> {
    match op
    case Save(draft, previous) =>
      var d := Trimmed(draft);
      {IdOf(d.name, d.project)} + if Replaced(s, d, previous).Some? then {IdOf(previous, d.project)} else {}
    case SetOff(_, _, _) => {}
    case SetProjectOff(_, _, _) => {}
    case Remove(name, project) => {IdOf(name, project)}
    case RemoveProject(projectId) => IdsIn(s.servers, projectId)
    case WriteToken(key, _, _, _) => {SecretId(key)}
    case SignOut(key) => {SecretId(key)}
    case Register(_, _) => {RESERVED_NAME}
  }

  lemma SavedElsewhere(s: State, draft: Draft, previous: string, isUrl: string -> bool)
    requires !Refused(s, Save(draft, previous), isUrl)
    ensures SameBut(s.secrets, After(s, Save(draft, previous), isUrl).secrets, Touched(s, Save(draft, previous)))
  {
    var d := Trimmed(draft);
    var i := Replaced(s, d, previous);
    hide DraftOk, IdOf, MoveSecrets, SameBut;
    MovedElsewhere(s.secrets, if i.Some? then Some(s.servers[i.value]) else None,
                   Drafted(d, if i.Some? then s.servers[i.value].offIn else {}), d);
  }

  lemma OtherSecretsUntouched(s: State, op: Op, isUrl: string -> bool, origin: string -> string)
    requires Inv(s, origin)
    ensures SameBut(s.secrets, After(s, op, isUrl).secrets, Touched(s, op))
  {
    if !Refused(s, op, isUrl) {
      if op.Save? {
        hide Inv, DraftOk, IdOf, Refused, SameBut, MoveSecrets;
        SavedElsewhere(s, op.draft, op.previous, isUrl);
      } else if op.RemoveProject? {
        PurgedProject(s.secrets, s.servers, op.projectId);
        hide Inv, IdOf;
      } else {
        hide Inv, IdOf, PurgeProject, MoveSecrets, WithoutProject;
      }
    }
  }

  lemma MovedElsewhere(secrets: Secrets, was: Option<Server>, srv: Server, d: Draft)
    ensures SameBut(secrets, MoveSecrets(secrets, was, srv, d), {srv.Id()} + if was.Some? then {was.value.Id()} else {})
  {
    hide IdOf;
  }

  // ---- Where the record's address and the server's part ----

  function Whole(url: string): string { url }

  function MoveTo(url: string, previous: string): Op {
    Save(Draft("k", "", url, "", [], map[], map[], {}), previous)
  }

  lemma MovedTo(s: State, url: string, previous: string, isUrl: string -> bool)
    requires isUrl(url) && url != "" && TrimSpace(url) == url
    requires if previous == "" then s.servers == []
             else previous == "k" && |s.servers| == 1 && s.servers[0].name == "k" && s.servers[0].project == ""
    ensures var t := After(s, MoveTo(url, previous), isUrl).servers;
            |t| == 1 && t[0].name == "k" && t[0].project == "" && t[0].url == url
  {
    hide MoveSecrets, IdOf;
    var d := Trimmed(MoveTo(url, previous).draft);
    assert d.name == "k" && d.command == "";
    assert DraftOk(d, isUrl);
  }

  lemma RunOfNext(ops: seq<Op>, op: Op, isUrl: string -> bool)
    ensures Run(ops + [op], isUrl) == After(Run(ops, isUrl), op, isUrl)
  {
    assert (ops + [op])[..|ops|] == ops;
    hide After;
  }

  lemma RunOfFour(ops: seq<Op>, isUrl: string -> bool)
    requires |ops| == 4
    ensures Run(ops, isUrl) == After(After(After(After(EMPTY, ops[0], isUrl), ops[1], isUrl), ops[2], isUrl), ops[3], isUrl)
  {
    hide After;
    RunOfNext([], ops[0], isUrl);
    RunOfNext([ops[0]], ops[1], isUrl);
    RunOfNext([ops[0], ops[1]], ops[2], isUrl);
    RunOfNext([ops[0], ops[1], ops[2]], ops[3], isUrl);
    assert [] + [ops[0]] == [ops[0]];
    assert [ops[0]] + [ops[1]] == [ops[0], ops[1]];
    assert [ops[0], ops[1]] + [ops[2]] == [ops[0], ops[1], ops[2]];
    assert [ops[0], ops[1], ops[2]] + [ops[3]] == ops;
  }

  function MovesBack(a: string, b: string, token: string): seq<Op> {
    [MoveTo(b, ""), MoveTo(a, "k"), WriteToken("k", a, a, token), MoveTo(b, "k")]
  }

  lemma BackAt(a: string, b: string, isUrl: string -> bool, token: string)
    requires isUrl(a) && a != "" && TrimSpace(a) == a && isUrl(b) && b != "" && TrimSpace(b) == b
    ensures IsCurrent(Run(MovesBack(a, b, token), isUrl).servers, "k", b)
  {
    var ops := MovesBack(a, b, token);
    hide DraftOk, Run, AfterSave;
    var s1 := After(EMPTY, ops[0], isUrl);
    var s2 := After(s1, ops[1], isUrl);
    var s3 := After(s2, ops[2], isUrl);
    var s4 := After(s3, ops[3], isUrl);
    RunOfFour(ops, isUrl);
    MovedTo(EMPTY, b, "", isUrl);
    MovedTo(s1, a, "k", isUrl);
    assert s3.servers == s2.servers;
    MovedTo(s3, b, "k", isUrl);
    hide After;
    assert s4.servers[0].Key() == "k";
  }

  // The sign-in at a is what is stored once it has been written.
  lemma SignedInAt(a: string, b: string, isUrl: string -> bool, token: string)
    requires isUrl(a) && a != "" && TrimSpace(a) == a && isUrl(b) && b != "" && TrimSpace(b) == b
    ensures var s := Run([MoveTo(b, ""), MoveTo(a, "k"), WriteToken("k", a, a, token)], isUrl);
            Slot(SecretId("k"), OAuthKey) in s.secrets && s.secrets[Slot(SecretId("k"), OAuthKey)] == SignIn(a, token)
  {
    hide *;
    var x, y, z := MoveTo(b, ""), MoveTo(a, "k"), WriteToken("k", a, a, token);
    RunOfThree(x, y, z, isUrl);
    NoServers();
    MovedTo(EMPTY, b, "", isUrl);
    var s1 := After(EMPTY, x, isUrl);
    MovedTo(s1, a, "k", isUrl);
    var s2 := After(s1, y, isUrl);
    KeyIsK(s2.servers, a);
    GuardedWrite(s2, z, isUrl);
  }

  lemma NoServers()
    ensures EMPTY.servers == []
  {
  }

  lemma KeyIsK(servers: seq<Server>, url: string)
    requires |servers| == 1 && servers[0].name == "k" && servers[0].project == "" && servers[0].url == url
    ensures IsCurrent(servers, "k", url)
  {
    assert servers[0].Key() == "k";
  }

  lemma RunOfThree(x: Op, y: Op, z: Op, isUrl: string -> bool)
    ensures Run([x, y, z], isUrl) == After(After(After(EMPTY, x, isUrl), y, isUrl), z, isUrl)
  {
    hide After;
    RunOfNext([], x, isUrl);
    RunOfNext([x], y, isUrl);
    RunOfNext([x, y], z, isUrl);
    assert [] + [x] == [x] && [x] + [y] == [x, y] && [x, y] + [z] == [x, y, z];
  }

  // Each write of the run is the code's own: the sign-in's at a is of a, and the
  // refresh's is of the record stored then, which it read.
  lemma MovesCome(a: string, b: string, isUrl: string -> bool, origin: string -> string, token: string)
    requires isUrl(a) && a != "" && TrimSpace(a) == a && isUrl(b) && b != "" && TrimSpace(b) == b && origin(a) == origin(b)
    ensures var ops := MovesBack(a, b, token) + [WriteToken("k", b, a, token)];
            forall i :: 0 <= i < |ops| ==> Comes(ops, i, isUrl, origin)
  {
    var ops := MovesBack(a, b, token) + [WriteToken("k", b, a, token)];
    SignedInAt(a, b, isUrl, token);
    assert ops[..3] == [MoveTo(b, ""), MoveTo(a, "k"), WriteToken("k", a, a, token)];
    hide SecretId, Run, TrimSpace;
    assert Reads(Run(ops[..3], isUrl), ops[4], origin);
  }

  // A refresh that began while the server was at b, read the record of a
  // sign-in at a, and saved after the address had gone back to b: the guard
  // lets it through and leaves a record of a under a server at b.
  lemma AddressMovedBack(a: string, b: string, isUrl: string -> bool, origin: string -> string, token: string)
    requires isUrl(a) && a != "" && TrimSpace(a) == a && isUrl(b) && b != "" && TrimSpace(b) == b
    requires a != b && origin(a) == origin(b)
    ensures var earlier := MovesBack(a, b, token);
            var refresh := WriteToken("k", b, a, token);
            && (forall op :: op in earlier ==> AtAddress(op, Whole)) && Inv(Run(earlier, isUrl), Whole)
            && AtAddress(refresh, origin)
            && (forall i :: 0 <= i <= |earlier| ==> Comes(earlier + [refresh], i, isUrl, origin))
            && !Inv(Run(earlier + [refresh], isUrl), Whole)
  {
    var ops := MovesBack(a, b, token);
    var refresh := WriteToken("k", b, a, token);
    assert forall op :: op in ops ==> AtAddress(op, Whole);
    hide Inv, After, Run, MovesBack, MoveTo, IsCurrent, SecretId;
    StoresAgree(ops, isUrl, Whole);
    BackAt(a, b, isUrl, token);
    RunOfNext(ops, refresh, isUrl);
    MovesCome(a, b, isUrl, origin, token);
    GuardedWrite(Run(ops, isUrl), refresh, isUrl);
    TokenWriteKeeps(Run(ops, isUrl), "k", b, a, token, Whole);
  }

  lemma GuardedWrite(s: State, op: Op, isUrl: string -> bool)
    requires op.WriteToken? && IsCurrent(s.servers, op.key, op.url)
    ensures After(s, op, isUrl) == s.(secrets := s.secrets[Slot(SecretId(op.key), OAuthKey) := SignIn(op.recordUrl, op.token)])
  {
  }
}
