/**
 * The instance registry and the handlers that create, delete and list instances
 * (src/handlers/instance.rs). Authentication becomes a permission flag or set, the
 * filesystem and the spawned provisioning task's outcomes become inputs, and the events
 * and file steps are kept, in order, in a ghost trace.
 */
module Instances {
  import opened Wrappers
  import opened Types
  import Minecraft

  // ---- choosing a fresh identifier ----

  /** The first eight characters of a registered key's string form, if it has that many. */
  function KeyHead(key: InstanceUuid): (h: Option<string>)
    ensures h.Some? <==> |AsRef(key)| >= 8
    ensures h.Some? ==> h.value == AsRef(key)[..8]
  {
    var s := AsRef(key);
    if |s| >= 8 then Some(s[..8]) else None
  }

  /** A registered key clashes with a candidate when its head equals the candidate's first eight characters. */
  predicate Clash(key: InstanceUuid, candidate: InstanceUuid)
    requires Generated(candidate)
  {
    KeyHead(key) == Some(NoPrefix(candidate)[..8])
  }

  /** No registered key clashes with the candidate. */
  predicate Unclaimed(keys: seq<InstanceUuid>, candidate: InstanceUuid)
    requires Generated(candidate)
  {
    forall i :: 0 <= i < |keys| ==> !Clash(keys[i], candidate)
  }

  /** Every identifier the generator hands out. */
  predicate AllGenerated(supply: seq<InstanceUuid>)
  {
    forall i :: 0 <= i < |supply| ==> Generated(supply[i])
  }

  /** A key order that visits every registered key exactly once, as a map's iteration does. */
  predicate EnumeratesKeys<V>(order: seq<InstanceUuid>, m: map<InstanceUuid, V>)
  {
    && (forall i :: 0 <= i < |order| ==> order[i] in m)
    && (forall k :: k in m ==> k in order)
    && (forall i, j :: 0 <= i < j < |order| ==> order[i] != order[j])
  }

  /**
   * The source's single pass: after visiting `keys[..n]`, the index in `supply` of the current
   * candidate. Each clash with the key just visited moves on to the next generated identifier.
   */
  function CandidateAfter(keys: seq<InstanceUuid>, supply: seq<InstanceUuid>, n: nat): (c: nat)
    requires n <= |keys| < |supply| && AllGenerated(supply)
    ensures c <= n
    decreases n
  {
    if n == 0 then 0
    else
      var c := CandidateAfter(keys, supply, n - 1);
      if Clash(keys[n - 1], supply[c]) then c + 1 else c
  }

  /** How many keys had been visited when the candidate was last replaced (0 if never). */
  function SettledAt(keys: seq<InstanceUuid>, supply: seq<InstanceUuid>, n: nat): (m: nat)
    requires n <= |keys| < |supply| && AllGenerated(supply)
    ensures m <= n
    decreases n
  {
    if n == 0 then 0
    else if Clash(keys[n - 1], supply[CandidateAfter(keys, supply, n - 1)]) then n
    else SettledAt(keys, supply, n - 1)
  }

  /**
   * What the single pass guarantees: the final candidate clashes with none of the keys
   * visited after its last replacement. Keys visited before it are never rechecked.
   */
  lemma {:induction false} SinglePassChecksOnlyLaterKeys(keys: seq<InstanceUuid>, supply: seq<InstanceUuid>, n: nat)
    requires n <= |keys| < |supply| && AllGenerated(supply)
    ensures var c := CandidateAfter(keys, supply, n);
      forall i :: SettledAt(keys, supply, n) <= i < n ==> !Clash(keys[i], supply[c])
    decreases n
  {
    if n > 0 {
      SinglePassChecksOnlyLaterKeys(keys, supply, n - 1);
    }
  }

  /** The identifier loop as the source writes it: one pass over the registered keys. */
  method PickUuidSinglePass(keys: seq<InstanceUuid>, supply: seq<InstanceUuid>)
    returns (uuid: InstanceUuid, ghost settled: nat)
    requires |keys| < |supply| && AllGenerated(supply)
    ensures uuid == supply[CandidateAfter(keys, supply, |keys|)]
    ensures settled == SettledAt(keys, supply, |keys|)
    ensures forall i :: settled <= i < |keys| ==> !Clash(keys[i], uuid)
  {
    var c := 0;
    uuid := supply[0];
    settled := 0;
    var i := 0;
    while i < |keys|
      invariant 0 <= i <= |keys|
      invariant c == CandidateAfter(keys, supply, i) && uuid == supply[c]
      invariant settled == SettledAt(keys, supply, i)
    {
      var head := KeyHead(keys[i]);
      if head.Some? && head.value == NoPrefix(uuid)[..8] {
        c := c + 1;
        uuid := supply[c];
        settled := i + 1;
      }
      i := i + 1;
    }
    SinglePassChecksOnlyLaterKeys(keys, supply, |keys|);
  }

  /**
   * Two registered keys and a generator whose first identifier clashes with the second key
   * and whose replacement clashes with the first: the single pass returns an identifier
   * whose first eight characters are already registered.
   */
  lemma SinglePassCanReturnClash()
    ensures var keys := [InstanceUuid("", "aaaaaaaa-k1"), InstanceUuid("", "bbbbbbbb-k2")];
      var supply := [InstanceUuid("", "bbbbbbbb-c0"), InstanceUuid("", "aaaaaaaa-c1"), InstanceUuid("", "cccccccc-c2")];
      AllGenerated(supply) && CandidateAfter(keys, supply, 2) == 1 && Clash(keys[0], supply[1])
  {
    var k0, k1 := InstanceUuid("", "aaaaaaaa-k1"), InstanceUuid("", "bbbbbbbb-k2");
    var c0, c1, c2 := InstanceUuid("", "bbbbbbbb-c0"), InstanceUuid("", "aaaaaaaa-c1"), InstanceUuid("", "cccccccc-c2");
    var keys, supply := [k0, k1], [c0, c1, c2];
    assert KeyHead(k0) == Some("aaaaaaaa") && KeyHead(k1) == Some("bbbbbbbb") by {
      assert AsRef(k0)[..8] == "aaaaaaaa" && AsRef(k1)[..8] == "bbbbbbbb";
    }
    assert NoPrefix(c0)[..8] == "bbbbbbbb" && NoPrefix(c1)[..8] == "aaaaaaaa";
    assert !Clash(k0, c0) && Clash(k1, c0) && Clash(k0, c1);
    assert CandidateAfter(keys, supply, 1) == 0;
  }

  /**
   * The identifier loop with every replacement rechecked against all keys: the first
   * generated identifier that no key clashes with. `supply` is what the generator yields;
   * the loop ends because some identifier it yields is unclaimed.
   */
  method PickUuid(keys: seq<InstanceUuid>, supply: seq<InstanceUuid>) returns (uuid: InstanceUuid)
    requires AllGenerated(supply)
    requires exists j :: 0 <= j < |supply| && Unclaimed(keys, supply[j])
    ensures Generated(uuid) && Unclaimed(keys, uuid)
    ensures exists j :: && 0 <= j < |supply| && supply[j] == uuid
                        && forall j' :: 0 <= j' < j ==> !Unclaimed(keys, supply[j'])
  {
    var c := 0;
    uuid := supply[0];
    while c < |supply|
      invariant 0 <= c <= |supply|
      invariant forall j' :: 0 <= j' < c ==> !Unclaimed(keys, supply[j'])
    {
      uuid := supply[c];
      var clash := false;
      var i := 0;
      while i < |keys| && !clash
        invariant 0 <= i <= |keys|
        invariant !clash ==> forall k :: 0 <= k < i ==> !Clash(keys[k], uuid)
        invariant clash ==> !Unclaimed(keys, uuid)
      {
        var head := KeyHead(keys[i]);
        if head.Some? && head.value == NoPrefix(uuid)[..8] {
          clash := true;
        }
        i := i + 1;
      }
      if !clash {
        return;
      }
      c := c + 1;
    }
    assert false;
  }

  // ---- the setup directory ----

  /** The instance directory's name: the instance name, a dash, and the identifier's first eight characters. */
  function SetupDirName(name: string, uuid: InstanceUuid): (dir: string)
    requires Generated(uuid)
    ensures |dir| == |name| + 9
    ensures dir[..|name|] == name && dir[|name|] == '-' && dir[|name| + 1..] == NoPrefix(uuid)[..8]
  {
    name + "-" + NoPrefix(uuid)[..8]
  }

  /** Two directory names agree exactly when the names agree and the identifiers' first eight characters do. */
  lemma SetupDirNameInjective(n1: string, u1: InstanceUuid, n2: string, u2: InstanceUuid)
    requires Generated(u1) && Generated(u2)
    ensures SetupDirName(n1, u1) == SetupDirName(n2, u2)
        <==> n1 == n2 && NoPrefix(u1)[..8] == NoPrefix(u2)[..8]
  {
    var d1, d2 := SetupDirName(n1, u1), SetupDirName(n2, u2);
    if d1 == d2 {
      assert |n1| == |n2|;
      assert n1 == d1[..|n1|] && n2 == d2[..|n2|];
      assert NoPrefix(u1)[..8] == d1[|n1| + 1..];
    }
  }

  /** The instance directory under the instances root. */
  function SetupPath(instancesRoot: string, name: string, uuid: InstanceUuid): (path: string)
    requires Generated(uuid)
  {
    Join(instancesRoot, SetupDirName(name, uuid))
  }

  function ConfigFile(path: string): (file: string)
  {
    Join(path, ".lodestone_config")
  }

  /**
   * When registered keys carry no prefix, an identifier no key clashes with gets a
   * directory whose name differs from every registered instance's, whatever the names.
   */
  lemma UnclaimedDirsDistinct(keys: seq<InstanceUuid>, uuid: InstanceUuid)
    requires Generated(uuid) && Unclaimed(keys, uuid)
    requires forall i :: 0 <= i < |keys| ==> keys[i].prefix == "" && Generated(keys[i])
    ensures forall i, n1, n2 :: 0 <= i < |keys| ==> SetupDirName(n1, keys[i]) != SetupDirName(n2, uuid)
  {
    forall i, n1, n2 | 0 <= i < |keys| ensures SetupDirName(n1, keys[i]) != SetupDirName(n2, uuid) {
      assert AsRef(keys[i]) == NoPrefix(keys[i]);
      assert !Clash(keys[i], uuid);
      SetupDirNameInjective(n1, keys[i], n2, uuid);
    }
  }

  // ---- the registry ----

  /** What the registry needs to know of an instance. */
  datatype Record = Record(name: string, state: ServerState, port: u32, path: string, creation_time: i64)

  datatype HandlerError =
    | Unauthorized
    | Forbidden
    | NotFound
    | BadRequest
    | Internal(message: string)

  /** An observable step: an event sent, a file or directory operation, or a registry change. */
  datatype Action =
    | ProgressStart(id: nat)
    | ProgressEnd(id: nat, success: bool)
    | CreateDir(path: string)
    | WriteFile(path: string)
    | RemoveFile(path: string)
    | RemoveDir(path: string)
    | AllocatePort(port: u32)
    | ReleasePort(port: u32)
    | Register(uuid: InstanceUuid)
    | Unregister(uuid: InstanceUuid)

  /** How the spawned provisioning task ends. */
  datatype CreateOutcome = Created | Failed | CleanupPanicked

  /** One registry entry with its key, as the list handler reports it. */
  datatype Listed = Listed(uuid: InstanceUuid, record: Record)

  predicate SortedByCreation(list: seq<Listed>)
  {
    forall i, j :: 0 <= i < j < |list| ==> list[i].record.creation_time <= list[j].record.creation_time
  }

  /** The entries of `instances` whose keys the requester may view, in the iteration order `order`. */
  function Visible(order: seq<InstanceUuid>, instances: map<InstanceUuid, Record>, viewable: set<InstanceUuid>)
    : (list: seq<Listed>)
    requires forall i :: 0 <= i < |order| ==> order[i] in instances
    ensures |list| <= |order|
    decreases |order|
  {
    if order == [] then []
    else
      var last := order[|order| - 1];
      var rest := Visible(order[..|order| - 1], instances, viewable);
      if last in viewable then rest + [Listed(last, instances[last])] else rest
  }

  /** A listed entry is exactly a registered, viewable instance with its record. */
  lemma {:induction false} VisibleMembers(order: seq<InstanceUuid>, instances: map<InstanceUuid, Record>,
                                          viewable: set<InstanceUuid>, x: Listed)
    requires forall i :: 0 <= i < |order| ==> order[i] in instances
    ensures x in Visible(order, instances, viewable)
        <==> x.uuid in order && x.uuid in viewable && x.record == instances[x.uuid]
    decreases |order|
  {
    if order != [] {
      var init := order[..|order| - 1];
      VisibleMembers(init, instances, viewable, x);
      assert order == init + [order[|order| - 1]];
    }
  }

  /**
   * A port is allocated exactly when a registered instance owns it, and no two instances
   * share one.
   */
  ghost predicate PortsOwned(instances: map<InstanceUuid, Record>, ports: set<u32>)
  {
    && (forall u :: u in instances ==> instances[u].port in ports)
    && (forall p :: p in ports ==> exists u :: u in instances && instances[u].port == p)
    && (forall u, v :: u in instances && v in instances && u != v ==> instances[u].port != instances[v].port)
  }

  /** Registering a new instance on a port nobody owns, and allocating that port, keeps ownership exact. */
  lemma RegisterKeepsPortsOwned(instances: map<InstanceUuid, Record>, ports: set<u32>, uuid: InstanceUuid, rec: Record)
    requires PortsOwned(instances, ports) && uuid !in instances
    requires forall u :: u in instances ==> instances[u].port != rec.port
    ensures PortsOwned(instances[uuid := rec], ports + {rec.port})
  {
    var after := instances[uuid := rec];
    forall p | p in ports + {rec.port} ensures exists u :: u in after && after[u].port == p {
      if p == rec.port {
        assert after[uuid].port == p;
      } else {
        var u :| u in instances && instances[u].port == p;
        assert after[u].port == p;
      }
    }
  }

  /** Unregistering an instance and releasing its port keeps ownership exact. */
  lemma UnregisterKeepsPortsOwned(instances: map<InstanceUuid, Record>, ports: set<u32>, uuid: InstanceUuid)
    requires PortsOwned(instances, ports) && uuid in instances
    ensures PortsOwned(instances - {uuid}, ports - {instances[uuid].port})
  {
    var after := instances - {uuid};
    forall p | p in ports - {instances[uuid].port} ensures exists u :: u in after && after[u].port == p {
      var u :| u in instances && instances[u].port == p;
      assert u != uuid && after[u].port == p;
    }
  }

  class Registry {
    var instances: map<InstanceUuid, Record>
    /** The ports claimed through the port manager. */
    var ports: set<u32>
    ghost var trace: seq<Action>

    ghost predicate Valid()
      reads this`instances, this`ports
    {
      PortsOwned(instances, ports)
    }

    constructor ()
      ensures instances == map[] && ports == {} && trace == [] && Valid()
    {
      instances := map[];
      ports := {};
      trace := [];
    }

    /**
     * The synchronous part of creation: choose an identifier with the single pass over the
     * registered keys (visited in `order`), create the directory and write its dot-config.
     * The registry does not change; a failure after the directory exists leaves it behind.
     * The identifier is the one the single pass ends on, so it may clash with a key visited
     * before its last redraw.
     */
    method BeginCreate(authenticated: bool, permitted: bool, order: seq<InstanceUuid>, supply: seq<InstanceUuid>,
                       instancesRoot: string, name: string, dirCreated: bool, dotConfigWritten: bool)
      returns (r: Result<(InstanceUuid, string), HandlerError>)
      requires EnumeratesKeys(order, instances)
      requires |order| < |supply| && AllGenerated(supply)
      modifies this`trace
      ensures instances == old(instances) && ports == old(ports)
      ensures !authenticated ==> r == Failure(Unauthorized) && trace == old(trace)
      ensures authenticated && !permitted ==> r == Failure(Forbidden) && trace == old(trace)
      ensures r.Success? <==> authenticated && permitted && dirCreated && dotConfigWritten
      ensures authenticated && permitted ==>
        var uuid := supply[CandidateAfter(order, supply, |order|)];
        var path := SetupPath(instancesRoot, name, uuid);
        && trace == old(trace) + [CreateDir(path)] + (if dirCreated then [WriteFile(ConfigFile(path))] else [])
        && (r.Success? ==> r.value == (uuid, path))
      ensures r.Success? ==>
        && Generated(r.value.0)
        && forall i :: SettledAt(order, supply, |order|) <= i < |order| ==> !Clash(order[i], r.value.0)
    {
      if !authenticated {
        return Failure(Unauthorized);
      }
      if !permitted {
        return Failure(Forbidden);
      }
      var uuid, settled := PickUuidSinglePass(order, supply);
      var path := SetupPath(instancesRoot, name, uuid);
      if !dirCreated {
        trace := trace + [CreateDir(path)];
        return Failure(Internal("Failed to create instance directory"));
      }
      trace := trace + [CreateDir(path)] + [WriteFile(ConfigFile(path))];
      if !dotConfigWritten {
        return Failure(Internal("Failed to write .lodestone_config file"));
      }
      return Success((uuid, path));
    }

    /**
     * The spawned task: provision the instance, report the outcome, and commit it. Only a
     * successful provisioning claims the port and registers the instance, in that order;
     * a failed one sends its failed End event and then removes the directory.
     */
    method FinishCreate(uuid: InstanceUuid, path: string, setup: Minecraft.SetupConfig,
                        io: Minecraft.ProvisionIo, progressId: nat, cleanupSucceeded: bool)
      returns (outcome: CreateOutcome)
      modifies this
      ensures var p := Minecraft.Provision(setup, io);
        && (p.Success? ==>
              && outcome == Created
              && ports == old(ports) + {p.value.config.port}
              && instances == old(instances)[uuid := Record(p.value.config.name, Stopped,
                                                 p.value.config.port, path, p.value.config.creation_time)]
              && trace == old(trace) + [ProgressStart(progressId), ProgressEnd(progressId, true),
                                        AllocatePort(p.value.config.port), Register(uuid)])
        && (p.Failure? ==>
              && outcome == (if cleanupSucceeded then Failed else CleanupPanicked)
              && ports == old(ports) && instances == old(instances)
              && trace == old(trace) + [ProgressStart(progressId), ProgressEnd(progressId, false), RemoveDir(path)])
      ensures (old(Valid()) && uuid !in old(instances)
               && forall u :: u in old(instances) ==> old(instances)[u].port != setup.port) ==> Valid()
    {
      var provisioned := Minecraft.Provision(setup, io);
      if provisioned.Failure? {
        trace := trace + [ProgressStart(progressId), ProgressEnd(progressId, false), RemoveDir(path)];
        if !cleanupSucceeded {
          return CleanupPanicked;
        }
        return Failed;
      }
      var config := provisioned.value.config;
      var rec := Record(config.name, Stopped, config.port, path, config.creation_time);
      if Valid() && uuid !in instances && forall u :: u in instances ==> instances[u].port != setup.port {
        RegisterKeepsPortsOwned(instances, ports, uuid, rec);
      }
      ports := ports + {config.port};
      instances := instances[uuid := rec];
      trace := trace + [ProgressStart(progressId), ProgressEnd(progressId, true),
                        AllocatePort(config.port), Register(uuid)];
      return Created;
    }

    /**
     * Deletes a stopped instance: remove its config file (the commit point), release its port,
     * unregister it, then remove its directory. The result reports only the directory removal.
     * `failureId` is the fresh event id the source gives the End event of a failed config removal.
     */
    method Delete(authenticated: bool, permitted: bool, uuid: InstanceUuid, progressId: nat, failureId: nat,
                  configRemoved: bool, dirRemoved: bool)
      returns (r: Result<(), HandlerError>)
      modifies this
      ensures !authenticated ==>
        r == Failure(Unauthorized) && instances == old(instances) && ports == old(ports) && trace == old(trace)
      ensures authenticated && !permitted ==>
        r == Failure(Forbidden) && instances == old(instances) && ports == old(ports) && trace == old(trace)
      ensures authenticated && permitted && uuid !in old(instances) ==>
        r == Failure(NotFound) && instances == old(instances) && ports == old(ports) && trace == old(trace)
      ensures authenticated && permitted && uuid in old(instances) && old(instances)[uuid].state != Stopped ==>
        r == Failure(BadRequest) && instances == old(instances) && ports == old(ports) && trace == old(trace)
      ensures authenticated && permitted && uuid in old(instances) && old(instances)[uuid].state == Stopped ==>
        var rec := old(instances)[uuid];
        && (!configRemoved ==>
              && r.Failure? && r.error.Internal?
              && instances == old(instances) && ports == old(ports)
              && trace == old(trace) + [ProgressStart(progressId), RemoveFile(ConfigFile(rec.path)),
                                        ProgressEnd(failureId, false)])
        && (configRemoved ==>
              && (r.Success? <==> dirRemoved)
              && instances == old(instances) - {uuid} && ports == old(ports) - {rec.port}
              && trace == old(trace) + [ProgressStart(progressId), RemoveFile(ConfigFile(rec.path)),
                                        ReleasePort(rec.port), Unregister(uuid), RemoveDir(rec.path),
                                        ProgressEnd(progressId, dirRemoved)])
      ensures old(Valid()) ==> Valid()
    {
      if !authenticated {
        return Failure(Unauthorized);
      }
      if !permitted {
        return Failure(Forbidden);
      }
      if uuid !in instances {
        return Failure(NotFound);
      }
      var rec := instances[uuid];
      if rec.state != Stopped {
        return Failure(BadRequest);
      }
      if !configRemoved {
        trace := trace + [ProgressStart(progressId), RemoveFile(ConfigFile(rec.path)), ProgressEnd(failureId, false)];
        return Failure(Internal("Failed to delete .lodestone_config file. Instance not deleted"));
      }
      if Valid() {
        UnregisterKeepsPortsOwned(instances, ports, uuid);
      }
      ports := ports - {rec.port};
      instances := instances - {uuid};
      trace := trace + [ProgressStart(progressId), RemoveFile(ConfigFile(rec.path)), ReleasePort(rec.port),
                        Unregister(uuid), RemoveDir(rec.path), ProgressEnd(progressId, dirRemoved)];
      if !dirRemoved {
        return Failure(Internal("Could not delete some or all of instance's files"));
      }
      return Success(());
    }

    /**
     * One instance's summary. The requester's token is checked first; the identifier is then
     * looked up before the right to view it is checked, so an unknown identifier is reported
     * as such to any authenticated requester.
     */
    method Info(authenticated: bool, mayView: bool, uuid: InstanceUuid) returns (r: Result<Record, HandlerError>)
      ensures !authenticated ==> r == Failure(Unauthorized)
      ensures authenticated && uuid !in instances ==> r == Failure(NotFound)
      ensures authenticated && uuid in instances && !mayView ==> r == Failure(Forbidden)
      ensures authenticated && uuid in instances && mayView ==> r == Success(instances[uuid])
    {
      if !authenticated {
        return Failure(Unauthorized);
      }
      if uuid !in instances {
        return Failure(NotFound);
      }
      if !mayView {
        return Failure(Forbidden);
      }
      return Success(instances[uuid]);
    }

    /**
     * The instances the requester may view, sorted by creation time, oldest first.
     * `order` is the map's iteration order.
     */
    method InstanceList(viewable: set<InstanceUuid>, order: seq<InstanceUuid>) returns (list: seq<Listed>)
      requires EnumeratesKeys(order, instances)
      ensures SortedByCreation(list)
      ensures multiset(list) == multiset(Visible(order, instances, viewable))
      ensures forall x :: x in list <==> x.uuid in instances && x.uuid in viewable && x.record == instances[x.uuid]
    {
      var collected: seq<Listed> := [];
      var i := 0;
      while i < |order|
        invariant 0 <= i <= |order|
        invariant collected == Visible(order[..i], instances, viewable)
      {
        var uuid := order[i];
        if uuid in viewable {
          collected := collected + [Listed(uuid, instances[uuid])];
        }
        assert order[..i + 1][..i] == order[..i];
        i := i + 1;
      }
      assert order[..i] == order;
      var a := new Listed[|collected|](k requires 0 <= k < |collected| => collected[k]);
      assert a[..] == collected;
      SortByCreation(a);
      list := a[..];
      forall x ensures x in list <==> x.uuid in instances && x.uuid in viewable && x.record == instances[x.uuid] {
        assert x in list <==> x in multiset(list);
        VisibleMembers(order, instances, viewable, x);
      }
    }
  }

  /** The first `n` elements are in creation-time order. */
  predicate SortedPrefix(s: seq<Listed>, n: nat)
    requires n <= |s|
  {
    forall p, q :: 0 <= p < q < n ==> s[p].record.creation_time <= s[q].record.creation_time
  }

  /** Exchanges two neighbouring elements. */
  method SwapDown(a: array<Listed>, j: nat)
    requires 0 < j < a.Length
    modifies a
    ensures a[..] == old(a[..])[j - 1 := old(a[j])][j := old(a[j - 1])]
    ensures multiset(a[..]) == old(multiset(a[..]))
  {
    a[j - 1], a[j] := a[j], a[j - 1];
  }

  /** Moves `a[i]` down into the sorted prefix `a[..i]`, as one pass of an insertion sort. */
  method InsertIntoPrefix(a: array<Listed>, i: nat)
    requires 0 < i < a.Length && SortedPrefix(a[..], i)
    modifies a
    ensures SortedPrefix(a[..], i + 1)
    ensures multiset(a[..]) == old(multiset(a[..]))
    ensures a[i + 1..] == old(a[i + 1..])
  {
    var j := i;
    while j > 0 && a[j - 1].record.creation_time > a[j].record.creation_time
      invariant 0 <= j <= i
      invariant forall p, q :: 0 <= p < q <= i && q != j ==> a[p].record.creation_time <= a[q].record.creation_time
      invariant multiset(a[..]) == old(multiset(a[..]))
      invariant a[i + 1..] == old(a[i + 1..])
    {
      SwapDown(a, j);
      j := j - 1;
    }
  }

  /** Sorts in place by creation time, oldest first, keeping the same elements. */
  method SortByCreation(a: array<Listed>)
    modifies a
    ensures SortedByCreation(a[..])
    ensures multiset(a[..]) == old(multiset(a[..]))
  {
    if a.Length == 0 {
      return;
    }
    var i := 1;
    while i < a.Length
      invariant 1 <= i <= a.Length
      invariant SortedPrefix(a[..], i)
      invariant multiset(a[..]) == old(multiset(a[..]))
    {
      InsertIntoPrefix(a, i);
      i := i + 1;
    }
  }
}
