// The store itself (internal/mcp/store.go): the methods that change the server
// list and the secrets in place, each proved to make the step Connections
// specifies for it. A write to a file is one step that succeeds.
module ConnectionStore {
  import opened Prelude
  import opened Text
  import opened Connections

  // The values of headers do not depend on those of variables.
  lemma HeadersApart(base: Secrets, envs: Secrets, was: Option<Server>, oldId: string, newId: string, d: Draft)
    requires forall slot :: slot in envs ==> slot.key.EnvKey?
    ensures HeaderPuts(base + envs, was, oldId, newId, d, d.headers.Keys) == HeaderPuts(base, was, oldId, newId, d, d.headers.Keys)
  {
  }

  lemma PutsInParts(base: Secrets, was: Option<Server>, oldId: string, newId: string, d: Draft)
    ensures var envs := base + EnvPuts(base, was, oldId, newId, d, d.env.Keys);
            envs + HeaderPuts(envs, was, oldId, newId, d, d.headers.Keys) == base + Puts(base, was, oldId, newId, d)
  {
    var envs := EnvPuts(base, was, oldId, newId, d, d.env.Keys);
    HeadersApart(base, envs, was, oldId, newId, d);
    hide EnvPuts, HeaderPuts;
    var headers := HeaderPuts(base, was, oldId, newId, d, d.headers.Keys);
    assert base + envs + headers == base + (envs + headers);
  }

  lemma PutsNoSignIn(base: Secrets, was: Option<Server>, oldId: string, newId: string, d: Draft)
    ensures forall slot :: slot in Puts(base, was, oldId, newId, d) ==> slot.key != OAuthKey
  {
    hide Keeping;
  }

  lemma NextEnvPut(base: Secrets, was: Option<Server>, oldId: string, newId: string, d: Draft, names: set<string>, n: string)
    requires names <= d.env.Keys && n in d.env && n !in names
    ensures var now := base + EnvPuts(base, was, oldId, newId, d, names);
            now[Slot(newId, EnvKey(n)) := Keeping(now, oldId, EnvKey(n), d.env[n], was.Some? && n in was.value.envNames)] ==
            base + EnvPuts(base, was, oldId, newId, d, names + {n})
  {
  }

  lemma NextHeaderPut(base: Secrets, was: Option<Server>, oldId: string, newId: string, d: Draft, names: set<string>, n: string)
    requires names <= d.headers.Keys && n in d.headers && n !in names
    ensures var now := base + HeaderPuts(base, was, oldId, newId, d, names);
            now[Slot(newId, HeaderKey(n)) := Keeping(now, oldId, HeaderKey(n), d.headers[n], was.Some? && n in was.value.headerNames)] ==
            base + HeaderPuts(base, was, oldId, newId, d, names + {n})
  {
  }

  function EnvSlots(id: string, names: set<string>): set<Slot> { set n | n in names :: Slot(id, EnvKey(n)) }

  function HeaderSlots(id: string, names: set<string>): set<Slot> { set n | n in names :: Slot(id, HeaderKey(n)) }

  class Store {
    var servers: seq<Server>
    var secrets: Secrets

    function Contents(): State
      reads this
    {
      State(servers, secrets)
    }

    constructor ()
      ensures Contents() == EMPTY
    {
      servers := [];
      secrets := map[];
    }

    method Put(oldId: string, newId: string, key: SecretKey, value: string, had: bool)
      modifies this`secrets
      ensures secrets == old(secrets)[Slot(newId, key) := Keeping(old(secrets), oldId, key, value, had)]
    {
      var v := Value(value);
      if value == "" && had && Slot(oldId, key) in secrets {
        if oldId == newId {
          assert secrets[Slot(newId, key) := secrets[Slot(newId, key)]] == secrets;
          return;
        }
        v := secrets[Slot(oldId, key)];
      }
      secrets := secrets[Slot(newId, key) := v];
    }

    method PutEnv(was: Option<Server>, srv: Server, d: Draft, oldId: string)
      requires Drafts(srv, d)
      modifies this`secrets
      ensures secrets == old(secrets) + EnvPuts(old(secrets), was, oldId, srv.Id(), d, d.env.Keys)
    {
      hide IdOf, Keeping;
      ghost var base := secrets;
      var todo := srv.envNames;
      assert secrets == base + EnvPuts(base, was, oldId, srv.Id(), d, srv.envNames - todo);
      hide EnvPuts;
      while todo != {}
        invariant todo <= srv.envNames
        invariant secrets == base + EnvPuts(base, was, oldId, srv.Id(), d, srv.envNames - todo)
        decreases |todo|
      {
        var n :| n in todo;
        NextEnvPut(base, was, oldId, srv.Id(), d, srv.envNames - todo, n);
        assert srv.envNames - todo + {n} == srv.envNames - (todo - {n});
        Put(oldId, srv.Id(), EnvKey(n), d.env[n], was.Some? && n in was.value.envNames);
        todo := todo - {n};
      }
      assert srv.envNames - todo == d.env.Keys;
    }

    method PutHeaders(was: Option<Server>, srv: Server, d: Draft, oldId: string)
      requires Drafts(srv, d)
      modifies this`secrets
      ensures secrets == old(secrets) + HeaderPuts(old(secrets), was, oldId, srv.Id(), d, d.headers.Keys)
    {
      hide IdOf, Keeping;
      ghost var base := secrets;
      var todo := srv.headerNames;
      assert secrets == base + HeaderPuts(base, was, oldId, srv.Id(), d, srv.headerNames - todo);
      hide HeaderPuts;
      while todo != {}
        invariant todo <= srv.headerNames
        invariant secrets == base + HeaderPuts(base, was, oldId, srv.Id(), d, srv.headerNames - todo)
        decreases |todo|
      {
        var n :| n in todo;
        NextHeaderPut(base, was, oldId, srv.Id(), d, srv.headerNames - todo, n);
        assert srv.headerNames - todo + {n} == srv.headerNames - (todo - {n});
        Put(oldId, srv.Id(), HeaderKey(n), d.headers[n], was.Some? && n in was.value.headerNames);
        todo := todo - {n};
      }
      assert srv.headerNames - todo == d.headers.Keys;
    }

    method PutNames(was: Option<Server>, srv: Server, d: Draft, oldId: string)
      requires Drafts(srv, d)
      modifies this`secrets
      ensures secrets == old(secrets) + Puts(old(secrets), was, oldId, srv.Id(), d)
    {
      hide IdOf, EnvPuts, HeaderPuts, Puts;
      PutEnv(was, srv, d, oldId);
      PutHeaders(was, srv, d, oldId);
      PutsInParts(old(secrets), was, oldId, srv.Id(), d);
    }

    method DropEnv(was: Server, srv: Server)
      modifies this`secrets
      ensures secrets == old(secrets) - EnvSlots(was.Id(), was.envNames - srv.envNames)
    {
      hide IdOf;
      ghost var base := secrets;
      var todo := was.envNames;
      while todo != {}
        invariant todo <= was.envNames
        invariant secrets == base - EnvSlots(was.Id(), was.envNames - todo - srv.envNames)
        decreases |todo|
      {
        var n :| n in todo;
        if n !in srv.envNames {
          secrets := secrets - {Slot(was.Id(), EnvKey(n))};
        }
        todo := todo - {n};
      }
      assert was.envNames - todo - srv.envNames == was.envNames - srv.envNames;
    }

    method DropHeaders(was: Server, srv: Server)
      modifies this`secrets
      ensures secrets == old(secrets) - HeaderSlots(was.Id(), was.headerNames - srv.headerNames)
    {
      hide IdOf;
      ghost var base := secrets;
      var todo := was.headerNames;
      while todo != {}
        invariant todo <= was.headerNames
        invariant secrets == base - HeaderSlots(was.Id(), was.headerNames - todo - srv.headerNames)
        decreases |todo|
      {
        var n :| n in todo;
        if n !in srv.headerNames {
          secrets := secrets - {Slot(was.Id(), HeaderKey(n))};
        }
        todo := todo - {n};
      }
      assert was.headerNames - todo - srv.headerNames == was.headerNames - srv.headerNames;
    }

    method DropNames(was: Server, srv: Server)
      modifies this`secrets
      ensures secrets == old(secrets) - Dropped(was, srv)
    {
      hide IdOf, KeepsSignIn;
      DropEnv(was, srv);
      DropHeaders(was, srv);
      if !KeepsSignIn(Some(was), srv) {
        secrets := secrets - {Slot(was.Id(), OAuthKey)};
      }
    }

    method MoveSecrets(was: Option<Server>, srv: Server, d: Draft)
      requires Drafts(srv, d)
      modifies this`secrets
      ensures secrets == Connections.MoveSecrets(old(secrets), was, srv, d)
    {
      hide IdOf, Puts, Dropped;
      var oldId, newId := OldId(was), srv.Id();
      if was.None? {
        secrets := Purge(secrets, newId);
      }
      PutsNoSignIn(secrets, was, oldId, newId, d);
      PutNames(was, srv, d, oldId);
      if was.Some? && oldId != newId {
        if KeepsSignIn(was, srv) && Slot(oldId, OAuthKey) in secrets {
          secrets := secrets[Slot(newId, OAuthKey) := secrets[Slot(oldId, OAuthKey)]];
        }
        secrets := Purge(secrets, oldId);
        return;
      }
      if was.None? {
        return;
      }
      DropNames(was.value, srv);
    }

    method SaveServer(draft: Draft, previous: string, isUrl: string -> bool) returns (ok: bool)
      modifies this
      ensures ok == !Refused(old(Contents()), Save(draft, previous), isUrl)
      ensures Contents() == After(old(Contents()), Save(draft, previous), isUrl)
    {
      hide IdOf, Connections.MoveSecrets, DraftOk;
      var d := Trimmed(draft);
      if !DraftOk(d, isUrl) {
        return false;
      }
      var was: Option<Server> := None;
      var i := |servers|;
      if previous != "" {
        i := IndexOf(servers, previous, d.project);
        if i == |servers| {
          return false;
        }
        was := Some(servers[i]);
      }
      if previous != d.name && IndexOf(servers, d.name, d.project) < |servers| {
        return false;
      }
      var srv := Drafted(d, if was.Some? then was.value.offIn else {});
      MoveSecrets(was, srv, d);
      if was.Some? {
        servers := servers[i := srv];
      } else {
        servers := servers + [srv];
      }
      ok := true;
    }

    method SetOff(name: string, project: string, off: set<string>, ghost isUrl: string -> bool) returns (ok: bool)
      modifies this
      ensures ok == !Refused(old(Contents()), Op.SetOff(name, project, off), isUrl)
      ensures Contents() == After(old(Contents()), Op.SetOff(name, project, off), isUrl)
    {
      var i := IndexOf(servers, name, project);
      if i == |servers| {
        return false;
      }
      servers := servers[i := servers[i].(off := CleanList(off))];
      ok := true;
    }

    method SetProjectOff(name: string, projectId: string, isOff: bool, ghost isUrl: string -> bool) returns (ok: bool)
      modifies this
      ensures ok == !Refused(old(Contents()), Op.SetProjectOff(name, projectId, isOff), isUrl)
      ensures Contents() == After(old(Contents()), Op.SetProjectOff(name, projectId, isOff), isUrl)
    {
      if !ProjectOk(projectId) {
        return false;
      }
      var i := IndexOf(servers, name, "");
      if i == |servers| {
        return false;
      }
      var offIn := servers[i].offIn - {projectId};
      if isOff {
        offIn := offIn + {projectId};
      }
      servers := servers[i := servers[i].(offIn := CleanList(offIn))];
      ok := true;
    }

    method RemoveServer(name: string, project: string, ghost isUrl: string -> bool) returns (ok: bool)
      modifies this
      ensures ok == !Refused(old(Contents()), Remove(name, project), isUrl)
      ensures Contents() == After(old(Contents()), Remove(name, project), isUrl)
    {
      var i := IndexOf(servers, name, project);
      if i == |servers| {
        return false;
      }
      var id := servers[i].Id();
      servers := servers[..i] + servers[i + 1..];
      secrets := Purge(secrets, id);
      ok := true;
    }

    method PurgeServers(gone: seq<Server>)
      modifies this`secrets
      ensures secrets == PurgeAll(old(secrets), gone)
    {
      hide IdOf;
      for i := 0 to |gone|
        invariant secrets == PurgeAll(old(secrets), gone[..i])
      {
        assert gone[..i + 1][..i] == gone[..i];
        secrets := Purge(secrets, gone[i].Id());
      }
      assert gone[..|gone|] == gone;
    }

    method RemoveProject(projectId: string, ghost isUrl: string -> bool) returns (ok: bool, gone: seq<Server>)
      modifies this
      ensures ok == !Refused(old(Contents()), Op.RemoveProject(projectId), isUrl)
      ensures Contents() == After(old(Contents()), Op.RemoveProject(projectId), isUrl)
      ensures ok ==> gone == InProject(old(servers), projectId)
      ensures !ok ==> gone == []
    {
      gone := [];
      if !ProjectOk(projectId) {
        return false, [];
      }
      var all := servers;
      var kept: seq<Server> := [];
      for i := 0 to |all|
        invariant kept == WithoutProject(all[..i], projectId)
        invariant gone == InProject(all[..i], projectId)
      {
        assert all[..i + 1][..i] == all[..i];
        if all[i].project == projectId {
          gone := gone + [all[i]];
        } else {
          kept := kept + [all[i].(offIn := all[i].offIn - {projectId})];
        }
      }
      assert all[..|all|] == all;
      servers := kept;
      PurgeServers(gone);
      PurgedInOrder(old(secrets), all, projectId);
      ok := true;
    }

    method WriteToken(key: string, url: string, recordUrl: string, token: string, ghost isUrl: string -> bool) returns (ok: bool)
      modifies this
      ensures ok == !Refused(old(Contents()), Op.WriteToken(key, url, recordUrl, token), isUrl)
      ensures Contents() == After(old(Contents()), Op.WriteToken(key, url, recordUrl, token), isUrl)
    {
      if !IsCurrent(servers, key, url) {
        return false;
      }
      secrets := secrets[Slot(SecretId(key), OAuthKey) := SignIn(recordUrl, token)];
      ok := true;
    }
  }

  // The servers of a project, in order, and the loop that purges them.
  function InProject(servers: seq<Server>, projectId: string): seq<Server> {
    if servers == [] then []
    else
      var last := servers[|servers| - 1];
      InProject(servers[..|servers| - 1], projectId) + if last.project == projectId then [last] else []
  }

  function PurgeAll(secrets: Secrets, gone: seq<Server>): Secrets {
    if gone == [] then secrets else Purge(PurgeAll(secrets, gone[..|gone| - 1]), gone[|gone| - 1].Id())
  }

  lemma PurgeNext(secrets: Secrets, gone: seq<Server>, last: Server)
    ensures PurgeAll(secrets, gone + [last]) == Purge(PurgeAll(secrets, gone), last.Id())
  {
    assert (gone + [last])[..|gone|] == gone;
    hide IdOf, Purge;
  }

  lemma {:induction false} PurgedInOrder(secrets: Secrets, servers: seq<Server>, projectId: string)
    ensures PurgeAll(secrets, InProject(servers, projectId)) == PurgeProject(secrets, servers, projectId)
  {
    hide IdOf, Purge, PurgeAll;
    if servers == [] {
      NothingPurged(secrets);
    } else {
      var n := |servers| - 1;
      PurgedInOrder(secrets, servers[..n], projectId);
      var init := InProject(servers[..n], projectId);
      PurgeNext(secrets, init, servers[n]);
      assert init + [] == init;
    }
  }

  lemma NothingPurged(secrets: Secrets)
    ensures PurgeAll(secrets, []) == secrets
  {
  }
}
