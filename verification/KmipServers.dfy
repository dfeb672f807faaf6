/** The table of KMIP servers, the credential files beside it and the keys
    kept on the servers.

    The table and the keys are stored together once a command has succeeded.
    The credential files are written at once, whatever becomes of the command.
  */
module KmipServers {
  import opened Wrappers

  type ServerId = string
  type Path = string
  type KeyRef = string

  datatype Credentials = Credentials(username: string, password: Option<string>)

  datatype ClientAuth = ClientAuth(certPath: Path, keyPath: Path)

  datatype Settings = Settings(
    verifyCertificate: bool,
    serverCert: Option<Path>,
    caCert: Option<Path>,
    connectTimeout: nat,
    readTimeout: nat,
    writeTimeout: nat,
    maxResponseBytes: nat,
    labelPrefix: string,
    maxLabelBytes: nat
  )

  datatype Server = Server(
    address: string,
    port: nat,
    credentials: Option<Path>,
    clientAuth: Option<ClientAuth>,
    settings: Settings
  )

  /** What a modification does to one setting. */
  datatype Change<T> = ChangeTo(value: T) | Remove | Leave

  /** The arguments of a modification. */
  datatype Changes = Changes(
    address: Option<string>,
    port: Option<nat>,
    store: Change<Path>,
    username: Change<string>,
    password: Change<string>,
    certPath: Change<Path>,
    keyPath: Change<Path>,
    insecure: Option<bool>,
    serverCert: Change<Path>,
    caCert: Change<Path>,
    connectTimeout: Option<nat>,
    readTimeout: Option<nat>,
    writeTimeout: Option<nat>,
    maxResponseBytes: Option<nat>,
    labelPrefix: Option<string>,
    maxLabelBytes: Option<nat>
  )

  type Files = map<Path, map<ServerId, Credentials>>

  predicate Stored(files: Files, p: Path, id: ServerId) {
    p in files && id in files[p]
  }

  /** Entries of other servers are the same in both. */
  ghost predicate OthersKept(before: Files, after: Files, id: ServerId) {
    forall p, t :: t != id ==>
                     (Stored(before, p, t) <==> Stored(after, p, t)) &&
                     (Stored(before, p, t) ==> before[p][t] == after[p][t])
  }

  function GetOr<T>(o: Option<T>, default: T): T {
    if o.Some? then o.value else default
  }

  function Changed<T>(c: Change<T>, current: Option<T>): Option<T> {
    match c
    case ChangeTo(v) => Some(v)
    case Remove => None
    case Leave => current
  }

  function NewSettings(s: Settings, c: Changes): Settings {
    Settings(if c.insecure.Some? then !c.insecure.value else s.verifyCertificate,
             Changed(c.serverCert, s.serverCert),
             Changed(c.caCert, s.caCert),
             GetOr(c.connectTimeout, s.connectTimeout),
             GetOr(c.readTimeout, s.readTimeout),
             GetOr(c.writeTimeout, s.writeTimeout),
             GetOr(c.maxResponseBytes, s.maxResponseBytes),
             GetOr(c.labelPrefix, s.labelPrefix),
             GetOr(c.maxLabelBytes, s.maxLabelBytes))
  }

  /** Client certificate and key are removed together and, without earlier
      ones to fall back on, set together. */
  function NewClientAuth(current: Option<ClientAuth>, c: Changes): Result<Option<ClientAuth>> {
    if c.certPath.Leave? && c.keyPath.Leave? then Ok(current)
    else if c.certPath.Remove? && c.keyPath.Remove? then Ok(None)
    else if c.certPath.Remove? || c.keyPath.Remove? then Err
    else if current.None? && (c.certPath.Leave? || c.keyPath.Leave?) then Err
    else Ok(Some(ClientAuth(if c.certPath.ChangeTo? then c.certPath.value else current.value.certPath,
                            if c.keyPath.ChangeTo? then c.keyPath.value else current.value.keyPath)))
  }

  /** Removing and changing credentials at once is refused, and so is removing
      only the username. (Leaving the file and removing the username but not
      changing the password panics when the entry is there; the options of the
      command never ask for it.) */
  predicate Contradictory(c: Changes) {
    || (c.store.Remove? && (c.username.ChangeTo? || c.password.ChangeTo?))
    || (c.store.Leave? && c.username.Remove?)
    || (c.store.ChangeTo? && c.username.Remove?)
  }

  /** The credentials file loses or moves the entry of the server. */
  predicate MovesCredentials(current: Option<Path>, c: Changes) {
    current.Some? && (c.store.Remove? || (c.store.ChangeTo? && c.store.value != current.value))
  }

  datatype Command =
    | Disable
    | AddServer(id: ServerId, server: Server, newCredentials: Option<Credentials>, pending: bool)
    | ModifyServer(id: ServerId, changes: Changes)
    | RemoveServer(id: ServerId)
    | SetDefault(id: ServerId)
    | GenerateKey(key: KeyRef)
    | ImportKey(key: KeyRef, id: ServerId)
    | DeleteKey(key: KeyRef)

  datatype Table = Table(servers: map<ServerId, Server>, defaultServer: Option<ServerId>, keys: map<KeyRef, ServerId>)

  /** The default server and the server of every key are configured. */
  ghost predicate Consistent(t: Table) {
    && (t.defaultServer.Some? ==> t.defaultServer.value in t.servers)
    && (forall k :: k in t.keys ==> t.keys[k] in t.servers)
  }

  predicate InUse(keys: map<KeyRef, ServerId>, id: ServerId) {
    exists k :: k in keys && keys[k] == id
  }

  /** The credentials part of a modification succeeds. */
  predicate CredentialsAccepted(current: Option<Path>, files: Files, id: ServerId, c: Changes) {
    var there := current.Some? && Stored(files, current.value, id);
    if c.store.Leave? && c.username.Leave? && c.password.Leave? then true
    else if Contradictory(c) then false
    else
      match c.store
      case Remove => current.Some? ==> there
      case ChangeTo(_) => if current.Some? then there else c.username.ChangeTo?
      case Leave => current.Some? && current.value in files && (there || c.username.ChangeTo?)
  }

  predicate Accepted(t: Table, files: Files, cmd: Command) {
    match cmd
    case Disable => true
    case AddServer(id, server, newCredentials, _) =>
      && id !in t.servers
      && (server.credentials.Some? ==> (newCredentials.Some? <==> !Stored(files, server.credentials.value, id)))
    case ModifyServer(id, c) =>
      && id in t.servers
      && CredentialsAccepted(t.servers[id].credentials, files, id, c)
      && NewClientAuth(t.servers[id].clientAuth, c).Ok?
    case RemoveServer(id) =>
      && t.defaultServer != Some(id)
      && !InUse(t.keys, id)
      && (id in t.servers ==> EntryThere(t.servers[id], files, id))
    case SetDefault(id) => id in t.servers
    case GenerateKey(key) => t.defaultServer.Some? ==> t.defaultServer.value in t.servers && key !in t.keys
    case ImportKey(key, id) => id in t.servers && key !in t.keys
    case DeleteKey(_) => true
  }

  /** What is stored after an accepted command. */
  function Step(t: Table, files: Files, cmd: Command): Table
    requires Accepted(t, files, cmd)
  {
    match cmd
    case Disable => t.(defaultServer := None)
    case AddServer(id, server, _, pending) =>
      t.(servers := t.servers[id := server],
         defaultServer := if !pending && t.servers == map[] then Some(id) else t.defaultServer)
    case ModifyServer(id, c) =>
      t.(servers := t.servers[id := Modified(t.servers[id], c)],
         defaultServer := if t.servers.Keys == {id} then Some(id) else t.defaultServer)
    case RemoveServer(id) => t.(servers := t.servers - {id})
    case SetDefault(id) => t.(defaultServer := Some(id))
    case GenerateKey(key) => if t.defaultServer.None? then t else t.(keys := t.keys[key := t.defaultServer.value])
    case ImportKey(key, id) => t.(keys := t.keys[key := id])
    case DeleteKey(key) => t.(keys := t.keys - {key})
  }

  /** No accepted command leaves a default server or a key without its server. */
  lemma {:induction false} StepKeepsConsistency(t: Table, files: Files, cmd: Command)
    requires Consistent(t) && Accepted(t, files, cmd)
    ensures Consistent(Step(t, files, cmd))
  {
    var t' := Step(t, files, cmd);
    forall k | k in t'.keys ensures t'.keys[k] in t'.servers {
      assert k in t.keys ==> t.keys[k] in t.servers;
    }
  }

  class Kmip {
    var servers: map<ServerId, Server>
    var defaultServer: Option<ServerId>
    /** The server each KMIP key of the key set names. */
    var keys: map<KeyRef, ServerId>
    var files: Files

    constructor ()
      ensures Integrity() && Credentialed()
      ensures servers == map[] && defaultServer == None && keys == map[] && files == map[]
    {
      servers, defaultServer, keys, files := map[], None, map[], map[];
    }

    /** What is stored. */
    ghost function Now(): Table
      reads this
    {
      Table(servers, defaultServer, keys)
    }

    ghost function OnDisk(): Disk
      reads this
    {
      Disk(Now(), files)
    }

    ghost predicate Integrity()
      reads this
    {
      Consistent(Now())
    }

    ghost predicate Credentialed()
      reads this
    {
      StillCredentialed(servers, files)
    }

    // ----- Credential files -----

    /** Take the entry of a server out of a file, and remove a file left empty. */
    method RemoveCredentials(id: ServerId, p: Path) returns (r: Option<Credentials>)
      modifies this`files
      ensures r.Some? <==> Stored(old(files), p, id)
      ensures r.Some? ==> r.value == old(files)[p][id] && !Stored(files, p, id)
      ensures r.Some? ==> (p in files <==> exists t :: t != id && t in old(files)[p])
      ensures r.None? ==> files == old(files)
      ensures OthersKept(old(files), files, id)
      ensures forall q :: q != p ==> (Stored(files, q, id) <==> Stored(old(files), q, id))
    {
      if p !in files || id !in files[p] {
        return None;
      }
      r := Some(files[p][id]);
      var left := files[p] - {id};
      assert forall t :: t in files[p] && t != id <==> t in left;
      if left == map[] {
        files := files - {p};
      } else {
        files := files[p := left];
      }
    }

    /** Put the entry of a server into a file, making the file if need be. */
    method StoreCredentials(id: ServerId, p: Path, c: Credentials)
      modifies this`files
      ensures Stored(files, p, id) && files[p][id] == c
      ensures OthersKept(old(files), files, id)
      ensures forall q :: q != p ==> (Stored(files, q, id) <==> Stored(old(files), q, id))
    {
      var current := if p in files then files[p] else map[];
      files := files[p := current[id := c]];
    }

    /** The credentials part of a modification: the new path, or an error
        before anything was written. */
    method ChangeCredentials(id: ServerId, current: Option<Path>, c: Changes) returns (path: Result<Option<Path>>)
      modifies this`files
      ensures OthersKept(old(files), files, id)
      ensures path.Ok? <==> CredentialsAccepted(current, old(files), id, c)
      ensures path.Err? ==> files == old(files)
      ensures path.Ok? && path.value.Some? && !(c.store.Leave? && c.username.Leave? && c.password.Leave?) ==>
                && Stored(files, path.value.value, id)
                && var creds := files[path.value.value][id];
                if current.Some? && Stored(old(files), current.value, id)
                then
                  var earlier := old(files)[current.value][id];
                  && creds.username == (if c.username.ChangeTo? then c.username.value else earlier.username)
                  && creds.password == (match c.password
                                        case ChangeTo(given) => Some(given)
                                        case Remove => None
                                        case Leave => earlier.password)
                else
                  && c.username.ChangeTo? && creds.username == c.username.value
                  && creds.password == if c.password.ChangeTo? then Some(c.password.value) else None
      ensures c.store.Leave? && c.username.Leave? && c.password.Leave? ==> files == old(files)
      ensures path.Ok? && path.value.Some? && (current.Some? ==> Stored(old(files), current.value, id)) ==>
                Stored(files, path.value.value, id)
      ensures path.Ok? ==> path.value == if c.store.Leave? then current else Changed(c.store, current)
      ensures path.Ok? && current.Some? && Stored(old(files), current.value, id) ==>
                (Stored(files, current.value, id) <==> !MovesCredentials(current, c))
    {
      if c.store.Leave? && c.username.Leave? && c.password.Leave? {
        return Ok(current);
      }
      if Contradictory(c) {
        return Err;
      }
      match c.store {
        case Remove =>
          if current.Some? {
            var removed := RemoveCredentials(id, current.value);
            if removed.None? {
              return Err;
            }
          }
          path := Ok(None);
        case ChangeTo(newPath) =>
          var creds: Credentials;
          if current.Some? {
            var removed := RemoveCredentials(id, current.value);
            if removed.None? {
              return Err;
            }
            creds := Adjusted(removed.value, c);
          } else {
            if !c.username.ChangeTo? {
              return Err;
            }
            creds := Fresh(c.username.value, c);
          }
          StoreCredentials(id, newPath, creds);
          path := Ok(Some(newPath));
        case Leave =>
          if current.None? || current.value !in files {
            return Err;
          }
          if id in files[current.value] {
            StoreCredentials(id, current.value, Adjusted(files[current.value][id], c));
          } else {
            if !c.username.ChangeTo? {
              return Err;
            }
            StoreCredentials(id, current.value, Fresh(c.username.value, c));
          }
          path := Ok(current);
      }
    }

    // ----- Commands on the table -----

    /** Add a server; the first one becomes the default unless asked not to. */
    method AddServer(id: ServerId, server: Server, newCredentials: Option<Credentials>, pending: bool)
      returns (ok: bool)
      modifies this`servers, this`defaultServer, this`files
      ensures ok <==> && id !in old(servers)
                      && (server.credentials.Some? ==>
                            (newCredentials.Some? <==> !Stored(old(files), server.credentials.value, id)))
      ensures servers == if ok then old(servers)[id := server] else old(servers)
      ensures defaultServer == if ok && !pending && old(servers) == map[] then Some(id) else old(defaultServer)
      ensures OthersKept(old(files), files, id)
      ensures ok && server.credentials.Some? ==> Stored(files, server.credentials.value, id)
      ensures ok && server.credentials.Some? && newCredentials.Some? ==>
                files[server.credentials.value][id] == newCredentials.value
      ensures forall q :: !(ok && server.credentials == Some(q)) ==>
                            (Stored(files, q, id) <==> Stored(old(files), q, id))
    {
      if id in servers {
        return false;
      }
      if server.credentials.Some? {
        var p := server.credentials.value;
        if p !in files {
          files := files[p := map[]];
        }
        if newCredentials.Some? == (id in files[p]) {
          return false;
        }
        if newCredentials.Some? {
          StoreCredentials(id, p, newCredentials.value);
        }
      }
      OnlyOne(servers, id, server);
      servers := servers[id := server];
      if !pending && |servers| == 1 {
        defaultServer := Some(id);
      }
      ok := true;
    }

    /** Change a server. The entry is out of the table until everything has
        been accepted; a failure leaves it out. */
    method ModifyServer(id: ServerId, c: Changes) returns (ok: bool)
      modifies this`servers, this`defaultServer, this`files
      ensures OthersKept(old(files), files, id)
      ensures ok <==> && id in old(servers)
                      && CredentialsAccepted(old(servers)[id].credentials, old(files), id, c)
                      && NewClientAuth(old(servers)[id].clientAuth, c).Ok?
      ensures !ok ==> servers == old(servers) - {id} && defaultServer == old(defaultServer)
      ensures ok ==>
                && servers == old(servers)[id := Modified(old(servers)[id], c)]
                && defaultServer == if old(servers.Keys) == {id} then Some(id) else old(defaultServer)
      ensures ok && Modified(old(servers)[id], c).credentials.Some? &&
              EntryThere(old(servers)[id], old(files), id) ==>
                Stored(files, Modified(old(servers)[id], c).credentials.value, id)
      ensures && id in old(servers) && old(servers)[id].credentials.Some?
              && EntryThere(old(servers)[id], old(files), id) ==>
                && var s := old(servers)[id];
                && (Stored(files, s.credentials.value, id) <==>
                      Contradictory(c) || !MovesCredentials(s.credentials, c))
    {
      if id !in servers {
        return false;
      }
      var s := servers[id];
      servers := servers - {id};
      var path := ChangeCredentials(id, s.credentials, c);
      if path.Err? {
        return false;
      }
      var auth := NewClientAuth(s.clientAuth, c);
      if auth.Err? {
        return false;
      }
      var changed := Server(GetOr(c.address, s.address), GetOr(c.port, s.port), path.value, auth.value,
                            NewSettings(s.settings, c));
      OnlyOne(servers, id, changed);
      servers := servers[id := changed];
      if |servers| == 1 {
        defaultServer := Some(id);
      }
      ok := true;
    }

    /** Remove a server that is neither the default nor used by a key. */
    method RemoveServer(id: ServerId) returns (ok: bool)
      modifies this`servers, this`files
      ensures ok <==> && defaultServer != Some(id)
                      && !InUse(keys, id)
                      && (id in old(servers) ==> EntryThere(old(servers)[id], old(files), id))
      ensures ok ==> servers == old(servers) - {id}
      ensures !ok ==> files == old(files)
      ensures OthersKept(old(files), files, id)
      ensures ok && id in old(servers) && old(servers)[id].credentials.Some? ==>
                !Stored(files, old(servers)[id].credentials.value, id)
    {
      if defaultServer == Some(id) {
        return false;
      }
      if InUse(keys, id) {
        return false;
      }
      if id !in servers {
        return true;
      }
      var removed := servers[id];
      servers := servers - {id};
      if removed.credentials.Some? {
        var gone := RemoveCredentials(id, removed.credentials.value);
        return gone.Some?;
      }
      ok := true;
    }

    /** Keep a new key on a server, which must be configured. */
    method AddKey(key: KeyRef, id: ServerId) returns (ok: bool)
      modifies this`keys
      ensures ok <==> id in servers && key !in old(keys)
      ensures keys == if ok then old(keys)[key := id] else old(keys)
    {
      if id !in servers || key in keys {
        return false;
      }
      keys := keys[key := id];
      ok := true;
    }

    method Perform(cmd: Command) returns (ok: bool)
      requires Integrity()
      modifies this
      ensures ok <==> Accepted(old(Now()), old(files), cmd)
      ensures ok ==> Now() == Step(old(Now()), old(files), cmd)
      ensures ok && old(Credentialed()) ==> Credentialed()
      ensures ok ==> !Strands(old(servers), cmd)
      ensures !ok && old(Credentialed()) ==> (StillCredentialed(old(servers), files) <==> !Strands(old(servers), cmd))
    {
      match cmd {
        case Disable =>
          defaultServer := None;
          ok := true;
        case AddServer(id, server, newCredentials, pending) =>
          ok := AddServer(id, server, newCredentials, pending);
        case ModifyServer(id, changes) =>
          ok := ModifyServer(id, changes);
        case RemoveServer(id) =>
          ok := RemoveServer(id);
        case SetDefault(id) =>
          ok := id in servers;
          if ok {
            defaultServer := Some(id);
          }
        case GenerateKey(key) =>
          ok := true;
          if defaultServer.Some? {
            ok := AddKey(key, defaultServer.value);
          }
        case ImportKey(key, id) =>
          ok := AddKey(key, id);
        case DeleteKey(key) =>
          keys := keys - {key};
          ok := true;
      }
    }

    /** One command: only what a successful one left is stored. */
    method Run(cmd: Command) returns (ok: bool)
      requires Integrity()
      modifies this
      ensures Integrity()
      ensures ok <==> Accepted(old(Now()), old(files), cmd)
      ensures Now() == if ok then Step(old(Now()), old(files), cmd) else old(Now())
      ensures old(Credentialed()) ==> (Credentialed() <==> !Strands(old(servers), cmd))
    {
      var s, d, k := servers, defaultServer, keys;
      if Accepted(Now(), files, cmd) {
        StepKeepsConsistency(Now(), files, cmd);
      }
      ok := Perform(cmd);
      if !ok {
        servers, defaultServer, keys := s, d, k;
      }
    }

    /** Any sequence of commands; `seen` is what is stored before each and at
        the end. */
    method RunAll(cmds: seq<Command>) returns (ghost seen: seq<Disk>)
      requires Integrity()
      modifies this
      ensures Integrity()
      ensures |seen| == |cmds| + 1 && seen[0] == old(OnDisk()) && seen[|cmds|] == OnDisk()
      ensures forall i :: 0 <= i < |cmds| ==> RunTakes(seen[i], cmds[i], seen[i + 1])
      ensures old(Credentialed()) && (forall i :: 0 <= i < |cmds| ==> !Strands(seen[i].table.servers, cmds[i])) ==>
                Credentialed()
    {
      seen := [OnDisk()];
      for i := 0 to |cmds|
        invariant Integrity() && |seen| == i + 1 && seen[0] == old(OnDisk()) && seen[i] == OnDisk()
        invariant forall j :: 0 <= j < i ==> RunTakes(seen[j], cmds[j], seen[j + 1])
        invariant old(Credentialed()) && (forall j :: 0 <= j < i ==> !Strands(seen[j].table.servers, cmds[j])) ==>
                    Credentialed()
      {
        var _ := Run(cmds[i]);
        seen := seen + [OnDisk()];
      }
    }
  }

  /** Everything on disk. */
  datatype Disk = Disk(table: Table, files: Files)

  /** One command takes what is stored from `a` to `b`. */
  ghost predicate RunTakes(a: Disk, cmd: Command, b: Disk) {
    && b.table == (if Accepted(a.table, a.files, cmd) then Step(a.table, a.files, cmd) else a.table)
    && (StillCredentialed(a.table.servers, a.files) ==>
          (StillCredentialed(b.table.servers, b.files) <==> !Strands(a.table.servers, cmd)))
  }

  /** The server as changed, when its changes are accepted. */
  function Modified(s: Server, c: Changes): Server
    requires NewClientAuth(s.clientAuth, c).Ok?
  {
    Server(GetOr(c.address, s.address), GetOr(c.port, s.port),
           if c.store.Leave? then s.credentials else Changed(c.store, s.credentials),
           NewClientAuth(s.clientAuth, c).value,
           NewSettings(s.settings, c))
  }

  predicate EntryThere(s: Server, files: Files, id: ServerId) {
    s.credentials.Some? ==> Stored(files, s.credentials.value, id)
  }

  /** Every server configured with a credentials file has its credentials there. */
  ghost predicate StillCredentialed(servers: map<ServerId, Server>, files: Files) {
    forall id :: id in servers ==> EntryThere(servers[id], files, id)
  }

  /** The modification moves the credentials and is refused only after that,
      for its client certificate. */
  predicate Strands(servers: map<ServerId, Server>, cmd: Command) {
    && cmd.ModifyServer?
    && cmd.id in servers
    && var s := servers[cmd.id];
    && !Contradictory(cmd.changes)
    && NewClientAuth(s.clientAuth, cmd.changes).Err?
    && MovesCredentials(s.credentials, cmd.changes)
  }

  function Adjusted(creds: Credentials, c: Changes): Credentials {
    Credentials(if c.username.ChangeTo? then c.username.value else creds.username, Changed(c.password, creds.password))
  }

  function Fresh(username: string, c: Changes): Credentials {
    Credentials(username, if c.password.ChangeTo? then Some(c.password.value) else None)
  }

  /** What a modification makes of a server, setting by setting. */
  lemma ModifiedFields(s: Server, c: Changes)
    requires NewClientAuth(s.clientAuth, c).Ok?
    ensures var t := Modified(s, c);
            && t.address == (if c.address.Some? then c.address.value else s.address)
            && t.port == (if c.port.Some? then c.port.value else s.port)
            && Becomes(c.store, s.credentials, t.credentials)
            && Some(t.clientAuth) == ClientAuthAfter(s.clientAuth, c)
            && t.settings.verifyCertificate == (match c.insecure
                                                case Some(insecure) => !insecure
                                                case None => s.settings.verifyCertificate)
            && Becomes(c.serverCert, s.settings.serverCert, t.settings.serverCert)
            && Becomes(c.caCert, s.settings.caCert, t.settings.caCert)
            && Replaces(c.connectTimeout, s.settings.connectTimeout, t.settings.connectTimeout)
            && Replaces(c.readTimeout, s.settings.readTimeout, t.settings.readTimeout)
            && Replaces(c.writeTimeout, s.settings.writeTimeout, t.settings.writeTimeout)
            && Replaces(c.maxResponseBytes, s.settings.maxResponseBytes, t.settings.maxResponseBytes)
            && Replaces(c.labelPrefix, s.settings.labelPrefix, t.settings.labelPrefix)
            && Replaces(c.maxLabelBytes, s.settings.maxLabelBytes, t.settings.maxLabelBytes)
  {
  }

  predicate Becomes<T(==)>(c: Change<T>, before: Option<T>, after: Option<T>) {
    if c.Remove? then after.None? else if c.Leave? then after == before else after == Some(c.value)
  }

  predicate Replaces<T(==)>(given: Option<T>, before: T, after: T) {
    if given.None? then after == before else after == given.value
  }

  /** Certificate and key after a modification, or nothing if it is refused: both
      stay, both go, or both are known, one at least newly. */
  function ClientAuthAfter(before: Option<ClientAuth>, c: Changes): Option<Option<ClientAuth>> {
    match (c.certPath, c.keyPath)
    case (Leave, Leave) => Some(before)
    case (Remove, Remove) => Some(None)
    case (ChangeTo(cert), ChangeTo(key)) => Some(Some(ClientAuth(cert, key)))
    case (ChangeTo(cert), Leave) => if before.None? then None else Some(Some(ClientAuth(cert, before.value.keyPath)))
    case (Leave, ChangeTo(key)) => if before.None? then None else Some(Some(ClientAuth(before.value.certPath, key)))
    case (Remove, _) => None
    case (_, Remove) => None
  }

  lemma ClientAuthDecided(before: Option<ClientAuth>, c: Changes)
    ensures NewClientAuth(before, c).Ok? <==> ClientAuthAfter(before, c).Some?
    ensures NewClientAuth(before, c).Ok? ==> ClientAuthAfter(before, c) == Some(NewClientAuth(before, c).value)
  {
  }

  /** What each accepted command leaves, entry by entry. */
  lemma {:induction false} StepEffects(t: Table, files: Files, cmd: Command)
    requires Accepted(t, files, cmd)
    ensures var after := Step(t, files, cmd);
            match cmd
            case Disable => after.defaultServer.None? && after.servers == t.servers && after.keys == t.keys
            case SetDefault(id) =>
              id in t.servers && after.defaultServer == Some(id) && after.servers == t.servers && after.keys == t.keys
            case AddServer(id, server, _, pending) =>
              && id !in t.servers && id in after.servers && after.servers[id] == server
              && OtherServersSame(t, after, id) && after.keys == t.keys
              && after.defaultServer == (if pending || t.servers != map[] then t.defaultServer else Some(id))
            case ModifyServer(id, _) =>
              && id in t.servers && id in after.servers
              && OtherServersSame(t, after, id) && after.keys == t.keys
              && after.defaultServer == (if forall o :: o in t.servers ==> o == id then Some(id) else t.defaultServer)
            case RemoveServer(id) =>
              && t.defaultServer != Some(id) && (forall k :: k in t.keys ==> t.keys[k] != id)
              && id !in after.servers && OtherServersSame(t, after, id)
              && after.keys == t.keys && after.defaultServer == t.defaultServer
            case GenerateKey(key) =>
              && OtherKeysSame(t, after, key) && SameServers(t, after)
              && (t.defaultServer.None? ==> after == t)
              && (t.defaultServer.Some? ==>
                    key !in t.keys && key in after.keys && after.keys[key] == t.defaultServer.value)
            case ImportKey(key, id) =>
              && OtherKeysSame(t, after, key) && SameServers(t, after)
              && id in t.servers && key !in t.keys && key in after.keys && after.keys[key] == id
            case DeleteKey(key) => OtherKeysSame(t, after, key) && SameServers(t, after) && key !in after.keys
  {
    if cmd.ModifyServer? {
      assert t.servers.Keys == {cmd.id} <==> forall o :: o in t.servers ==> o == cmd.id;
    }
  }

  ghost predicate OtherServersSame(t: Table, after: Table, id: ServerId) {
    forall o :: o != id ==> (o in after.servers <==> o in t.servers) &&
                            (o in after.servers ==> after.servers[o] == t.servers[o])
  }

  ghost predicate OtherKeysSame(t: Table, after: Table, key: KeyRef) {
    forall k :: k != key ==> (k in after.keys <==> k in t.keys) && (k in after.keys ==> after.keys[k] == t.keys[k])
  }

  predicate SameServers(t: Table, after: Table) {
    after.servers == t.servers && after.defaultServer == t.defaultServer
  }

  /** With one server left, it is the one just put in. */
  lemma {:induction false} OnlyOne<V>(m: map<ServerId, V>, id: ServerId, v: V)
    ensures |m[id := v]| == 1 <==> forall t :: t in m ==> t == id
  {
    var n := m[id := v];
    assert n.Keys == m.Keys + {id};
    assert |n| == |n.Keys|;
    if forall t :: t in m ==> t == id {
      assert n.Keys == {id};
    }
    if t :| t in m && t != id {
      SubsetSmaller({t, id}, n.Keys);
    }
  }

  lemma {:induction false} SubsetSmaller<T>(a: set<T>, b: set<T>)
    requires a <= b
    ensures |a| <= |b|
  {
    assert b == a + (b - a);
  }

  /** The options of `kmip modify-server`. */
  datatype Options = Options(
    address: Option<string>,
    port: Option<nat>,
    noCredentials: bool,
    store: Option<Path>,
    username: Option<string>,
    password: Option<string>,
    noClientAuth: bool,
    cert: Option<Path>,
    key: Option<Path>,
    insecure: Option<bool>,
    serverCert: Option<Path>,
    caCert: Option<Path>,
    connectTimeout: Option<nat>,
    readTimeout: Option<nat>,
    writeTimeout: Option<nat>,
    maxResponseBytes: Option<nat>,
    labelPrefix: Option<string>,
    maxLabelBytes: Option<nat>
  )

  function Wanted<T>(remove: bool, o: Option<T>): Change<T> {
    if remove then Remove else if o.Some? then ChangeTo(o.value) else Leave
  }

  function Requested(o: Options): Changes {
    Changes(o.address, o.port,
            Wanted(o.noCredentials, o.store),
            Wanted(o.noCredentials, o.username),
            Wanted(o.noCredentials, o.password),
            Wanted(o.noClientAuth, o.cert),
            Wanted(o.noClientAuth, o.key),
            o.insecure,
            Wanted(false, o.serverCert),
            Wanted(false, o.caCert),
            o.connectTimeout, o.readTimeout, o.writeTimeout, o.maxResponseBytes, o.labelPrefix, o.maxLabelBytes)
  }

  /** What the options ask for, one by one. */
  lemma RequestedFields(o: Options)
    ensures var c := Requested(o);
            && Asks(o.noCredentials, o.store, c.store) && Asks(o.noCredentials, o.username, c.username)
            && Asks(o.noCredentials, o.password, c.password)
            && Asks(o.noClientAuth, o.cert, c.certPath) && Asks(o.noClientAuth, o.key, c.keyPath)
            && Asks(false, o.serverCert, c.serverCert) && Asks(false, o.caCert, c.caCert)
            && (c.address, c.port, c.insecure) == (o.address, o.port, o.insecure)
            && (c.connectTimeout, c.readTimeout, c.writeTimeout) == (o.connectTimeout, o.readTimeout, o.writeTimeout)
            && (c.maxResponseBytes, c.labelPrefix) == (o.maxResponseBytes, o.labelPrefix)
            && c.maxLabelBytes == o.maxLabelBytes
  {
  }

  predicate Asks<T(==)>(remove: bool, given: Option<T>, c: Change<T>) {
    match c
    case Remove => remove
    case ChangeTo(v) => !remove && given == Some(v)
    case Leave => !remove && given.None?
  }

  /** On the command line credentials are lost exactly when their file is
      changed together with only one of certificate and key, for a server that
      has neither. */
  lemma StrandingOptions(servers: map<ServerId, Server>, id: ServerId, o: Options)
    ensures !Contradictory(Requested(o))
    ensures Strands(servers, ModifyServer(id, Requested(o))) <==>
              && id in servers
              && servers[id].credentials.Some?
              && (o.noCredentials || (o.store.Some? && o.store != servers[id].credentials))
              && !o.noClientAuth
              && servers[id].clientAuth.None?
              && (o.cert.Some? != o.key.Some?)
  {
  }

  /** Such a run, from an empty table: add a server with credentials, then move
      them while naming a certificate without its key. */
  method StrandedRun() returns (k: Kmip)
    ensures fresh(k) && k.Integrity() && !k.Credentialed()
  {
    k := new Kmip();
    var settings := Settings(true, None, None, 3, 30, 3, 8192, "", 32);
    var server := Server("hsm", 5696, Some("old.json"), None, settings);
    var added := k.AddServer("a", server, Some(Credentials("user", None)), false);
    var changes := Requested(Options(None, None, false, Some("fresh.json"), None, None, false, Some("cert.pem"), None,
                                     None, None, None, None, None, None, None, None, None));
    var modified := k.Run(ModifyServer("a", changes));
  }
}
