/**
 * A Minecraft instance (src/implementations/minecraft/mod.rs): its flavour, the record that
 * is derived from a setup request and persisted, the provisioning steps as a chain of
 * outcomes, the server.properties buffer and file, the rcon guard, and the wiring of the
 * backup task at restore time.
 */
module Minecraft {
  import opened Wrappers
  import opened Types
  import opened Cells
  import Backup

  // ---- flavours ----

  datatype Flavour =
    | Vanilla
    | Fabric(loader_version: Option<string>, installer_version: Option<string>)
    | Paper(paper_build: Option<i64>)
    | Spigot
    | Forge(forge_build: Option<string>)

  /** The flavour's name; the version payload plays no part in it. */
  function FlavourName(f: Flavour): (name: string)
    ensures name == "vanilla" <==> f.Vanilla?
    ensures name == "fabric" <==> f.Fabric?
    ensures name == "paper" <==> f.Paper?
    ensures name == "spigot" <==> f.Spigot?
    ensures name == "forge" <==> f.Forge?
  {
    match f
    case Vanilla => "vanilla"
    case Fabric(_, _) => "fabric"
    case Paper(_) => "paper"
    case Spigot => "spigot"
    case Forge(_) => "forge"
  }

  predicate SameVariant(f1: Flavour, f2: Flavour)
  {
    || (f1.Vanilla? && f2.Vanilla?) || (f1.Fabric? && f2.Fabric?) || (f1.Paper? && f2.Paper?)
    || (f1.Spigot? && f2.Spigot?) || (f1.Forge? && f2.Forge?)
  }

  /** Two flavours have the same name exactly when they are the same variant. */
  lemma FlavourNameByVariant(f1: Flavour, f2: Flavour)
    ensures FlavourName(f1) == FlavourName(f2) <==> SameVariant(f1, f2)
  {
  }

  /** The file name the server binary is downloaded under. */
  function JarName(resolved: Flavour): (name: string)
    ensures name == "forge-installer.jar" <==> resolved.Forge?
    ensures name == "server.jar" <==> !resolved.Forge?
  {
    match resolved
    case Forge(_) => "forge-installer.jar"
    case _ => "server.jar"
  }

  // ---- configuration records ----

  datatype SetupConfig = SetupConfig(
    game_type: string,
    uuid: InstanceUuid,
    name: string,
    version: string,
    flavour: Flavour,
    port: u32,
    path: string,
    cmd_args: Option<seq<string>>,
    description: Option<string>,
    min_ram: Option<u32>,
    max_ram: Option<u32>,
    auto_start: Option<bool>,
    restart_on_crash: Option<bool>,
    timeout_last_left: Option<u32>,
    timeout_no_activity: Option<u32>,
    start_on_connection: Option<bool>,
    backup_period: Option<u32>)

  datatype RestoreConfig = RestoreConfig(
    game_type: string,
    uuid: InstanceUuid,
    name: string,
    version: string,
    flavour: Flavour,
    description: string,
    cmd_args: seq<string>,
    path: string,
    port: u32,
    min_ram: u32,
    max_ram: u32,
    creation_time: i64,
    auto_start: bool,
    restart_on_crash: bool,
    backup_period: Option<u32>,
    jre_major_version: u64,
    has_started: bool)

  const DefaultMinRam: u32 := 2048
  const DefaultMaxRam: u32 := 4096

  /**
   * The durable record built once provisioning has succeeded. The flavour is the one the
   * build lookup resolved, the creation time is the clock's, and the runtime version is the
   * one the runtime lookup chose; every other field is the request's, with defaults.
   */
  function DeriveRestoreConfig(setup: SetupConfig, resolved: Flavour, now: i64, jre: u64): (c: RestoreConfig)
    ensures c.min_ram == (if setup.min_ram.Some? then setup.min_ram.value else 2048)
    ensures c.max_ram == (if setup.max_ram.Some? then setup.max_ram.value else 4096)
    ensures c.description == (if setup.description.Some? then setup.description.value else "")
    ensures c.cmd_args == (if setup.cmd_args.Some? then setup.cmd_args.value else [])
    ensures c.auto_start == (setup.auto_start == Some(true))
    ensures c.restart_on_crash == (setup.restart_on_crash == Some(true))
    ensures !c.has_started
    ensures c.game_type == setup.game_type && c.uuid == setup.uuid && c.name == setup.name
    ensures c.version == setup.version && c.path == setup.path && c.port == setup.port
    ensures c.backup_period == setup.backup_period
    ensures c.flavour == resolved && c.creation_time == now && c.jre_major_version == jre
  {
    RestoreConfig(
      setup.game_type, setup.uuid, setup.name, setup.version, resolved,
      UnwrapOr(setup.description, ""), UnwrapOr(setup.cmd_args, []), setup.path, setup.port,
      UnwrapOr(setup.min_ram, DefaultMinRam), UnwrapOr(setup.max_ram, DefaultMaxRam), now,
      UnwrapOr(setup.auto_start, false), UnwrapOr(setup.restart_on_crash, false),
      setup.backup_period, jre, false)
  }

  /** A setup request that spells out every field of a record explicitly. */
  function ExplicitSetup(c: RestoreConfig): (setup: SetupConfig)
  {
    SetupConfig(
      c.game_type, c.uuid, c.name, c.version, c.flavour, c.port, c.path, Some(c.cmd_args),
      Some(c.description), Some(c.min_ram), Some(c.max_ram), Some(c.auto_start),
      Some(c.restart_on_crash), None, None, None, c.backup_period)
  }

  /** Every record that has never started is derived from the request that spells it out. */
  lemma DeriveFromExplicit(c: RestoreConfig)
    requires !c.has_started
    ensures DeriveRestoreConfig(ExplicitSetup(c), c.flavour, c.creation_time, c.jre_major_version) == c
  {
  }

  /**
   * Filling in defaults is idempotent: spelling the derived record out as a request and
   * deriving again gives the same record.
   */
  lemma DeriveIdempotent(setup: SetupConfig, resolved: Flavour, now: i64, jre: u64)
    ensures var c := DeriveRestoreConfig(setup, resolved, now, jre);
      DeriveRestoreConfig(ExplicitSetup(c), resolved, now, jre) == c
  {
    DeriveFromExplicit(DeriveRestoreConfig(setup, resolved, now, jre));
  }

  // ---- provisioning ----

  /** A runtime download location and the runtime's major version. */
  datatype JreRelease = JreRelease(url: string, major: u64)

  /** A server binary location and the flavour (with build) it resolves to. */
  datatype ServerJar = ServerJar(url: string, resolved: Flavour)

  /**
   * What each step of provisioning met: the filesystem, the network, the installer process
   * and the clock are outside the model and enter as outcomes.
   */
  datatype ProvisionIo = ProvisionIo(
    filesCreated: bool,             // directories, eula.txt and the initial server.properties
    jre: Option<JreRelease>,        // the runtime lookup for the game version
    jreCached: bool,                // the runtime directory already exists
    jreDownloaded: bool,            // the archive was downloaded and extracted
    jreEntries: nat,                // how many top-level entries the extraction produced
    jreMovedIntoPlace: bool,        // the archive was removed and the entry renamed into the cache
    serverJar: Option<ServerJar>,   // the build lookup for the version and requested flavour
    jarDownloaded: bool,
    forgeInstalled: bool,           // the installer started, was waited for and exited successfully
    jvmArgsWritten: bool,           // user_jvm_args.txt was written after the installer
    now: i64,                       // the clock, in seconds
    configWritten: bool)            // the persisted record was written

  datatype ProvisionError =
    | CreateFilesFailed
    | NoJreUrl
    | JreDownloadFailed
    | JreArchiveShape(entries: nat)
    | JreMoveFailed
    | NoServerJar(flavour_name: string, version: string)
    | JarDownloadFailed
    | ForgeInstallFailed
    | JvmArgsWriteFailed
    | ConfigWriteFailed

  /** What a successful provisioning leaves: the persisted record and the binary's file name. */
  datatype Provisioned = Provisioned(config: RestoreConfig, jar_name: string)

  /** The runtime step succeeds: a release is known and is cached, or is fetched as one directory. */
  predicate JreReady(io: ProvisionIo)
  {
    io.jre.Some? && (io.jreCached || (io.jreDownloaded && io.jreEntries == 1 && io.jreMovedIntoPlace))
  }

  /** The binary step succeeds; the installer and its argument file matter only for Forge. */
  predicate JarReady(io: ProvisionIo)
  {
    io.serverJar.Some? && io.jarDownloaded
    && (io.serverJar.value.resolved.Forge? ==> io.forgeInstalled && io.jvmArgsWritten)
  }

  /**
   * The steps of instance creation, each failing the whole on its first error: the error
   * is the one of the first step that failed.
   */
  function Provision(setup: SetupConfig, io: ProvisionIo): (r: Result<Provisioned, ProvisionError>)
    ensures r.Success? <==> io.filesCreated && JreReady(io) && JarReady(io) && io.configWritten
    ensures r.Success? ==>
      r.value.config == DeriveRestoreConfig(setup, io.serverJar.value.resolved, io.now, io.jre.value.major)
      && r.value.jar_name == JarName(io.serverJar.value.resolved)
    // step 1: directories and files
    ensures !io.filesCreated ==> r == Failure(CreateFilesFailed)
    // step 2: the runtime
    ensures io.filesCreated && io.jre.None? ==> r == Failure(NoJreUrl)
    ensures io.filesCreated && io.jre.Some? && !io.jreCached && !io.jreDownloaded ==>
      r == Failure(JreDownloadFailed)
    ensures io.filesCreated && io.jre.Some? && !io.jreCached && io.jreDownloaded && io.jreEntries != 1 ==>
      r == Failure(JreArchiveShape(io.jreEntries))
    ensures (io.filesCreated && io.jre.Some? && !io.jreCached && io.jreDownloaded && io.jreEntries == 1
             && !io.jreMovedIntoPlace) ==>
      r == Failure(JreMoveFailed)
    // step 3: the server binary
    ensures io.filesCreated && JreReady(io) && io.serverJar.None? ==>
      r == Failure(NoServerJar(FlavourName(setup.flavour), setup.version))
    ensures io.filesCreated && JreReady(io) && io.serverJar.Some? && !io.jarDownloaded ==>
      r == Failure(JarDownloadFailed)
    ensures (io.filesCreated && JreReady(io) && io.serverJar.Some? && io.jarDownloaded
             && io.serverJar.value.resolved.Forge? && !io.forgeInstalled) ==>
      r == Failure(ForgeInstallFailed)
    ensures (io.filesCreated && JreReady(io) && io.serverJar.Some? && io.jarDownloaded
             && io.serverJar.value.resolved.Forge? && io.forgeInstalled && !io.jvmArgsWritten) ==>
      r == Failure(JvmArgsWriteFailed)
    // step 4: the persisted record
    ensures io.filesCreated && JreReady(io) && JarReady(io) && !io.configWritten ==>
      r == Failure(ConfigWriteFailed)
  {
    if !io.filesCreated then Failure(CreateFilesFailed)
    else if io.jre.None? then Failure(NoJreUrl)
    else if !io.jreCached && !io.jreDownloaded then Failure(JreDownloadFailed)
    else if !io.jreCached && io.jreEntries != 1 then Failure(JreArchiveShape(io.jreEntries))
    else if !io.jreCached && !io.jreMovedIntoPlace then Failure(JreMoveFailed)
    else if io.serverJar.None? then Failure(NoServerJar(FlavourName(setup.flavour), setup.version))
    else if !io.jarDownloaded then Failure(JarDownloadFailed)
    else if io.serverJar.value.resolved.Forge? && !io.forgeInstalled then Failure(ForgeInstallFailed)
    else if io.serverJar.value.resolved.Forge? && !io.jvmArgsWritten then Failure(JvmArgsWriteFailed)
    else if !io.configWritten then Failure(ConfigWriteFailed)
    else
      var resolved := io.serverJar.value.resolved;
      Success(Provisioned(DeriveRestoreConfig(setup, resolved, io.now, io.jre.value.major), JarName(resolved)))
  }

  // ---- decimal text ----

  function Digit(d: nat): (c: char)
    requires d < 10
    ensures '0' <= c <= '9' && c as int - '0' as int == d
  {
    ('0' as int + d) as char
  }

  /** `n` written in decimal, as `format!("{}", n)` does. */
  function Decimal(n: nat): (s: string)
    ensures |s| >= 1 && forall i :: 0 <= i < |s| ==> '0' <= s[i] <= '9'
    ensures |s| > 1 ==> s[0] != '0'
    decreases n
  {
    if n < 10 then [Digit(n)] else Decimal(n / 10) + [Digit(n % 10)]
  }

  /** The value of a string of decimal digits. */
  function DecimalValue(s: string): (n: nat)
    requires forall i :: 0 <= i < |s| ==> '0' <= s[i] <= '9'
  {
    if s == [] then 0 else 10 * DecimalValue(s[..|s| - 1]) + (s[|s| - 1] as int - '0' as int)
  }

  lemma {:induction false} DecimalRoundTrip(n: nat)
    ensures DecimalValue(Decimal(n)) == n
    decreases n
  {
    if n >= 10 {
      var s := Decimal(n);
      assert s[..|s| - 1] == Decimal(n / 10);
      DecimalRoundTrip(n / 10);
    }
  }

  // ---- the server.properties format ----

  /** One `key=value` line. */
  function Line(key: string, value: string): (line: string)
  {
    key + "=" + value + "\n"
  }

  /** The file text for entries in the given order: their lines, one after another. */
  function Serialize(entries: seq<(string, string)>): (text: string)
    ensures entries == [] <==> text == []
    decreases |entries|
  {
    if entries == [] then "" else Line(entries[0].0, entries[0].1) + Serialize(entries[1..])
  }

  lemma {:induction false} SerializeSnoc(entries: seq<(string, string)>, key: string, value: string)
    ensures Serialize(entries + [(key, value)]) == Serialize(entries) + Line(key, value)
    decreases |entries|
  {
    if entries == [] {
      assert entries + [(key, value)] == [(key, value)];
    } else {
      assert (entries + [(key, value)])[1..] == entries[1..] + [(key, value)];
      SerializeSnoc(entries[1..], key, value);
    }
  }

  /** The first position of `c` in `s`, or `|s|` when there is none. */
  function Find(s: string, c: char): (i: nat)
    ensures i <= |s| && (i < |s| ==> s[i] == c)
    ensures forall j :: 0 <= j < i ==> s[j] != c
    decreases |s|
  {
    if s == [] then 0 else if s[0] == c then 0 else 1 + Find(s[1..], c)
  }

  /**
   * Reads `key=value` lines back; the last line may lack its newline. None when a line
   * lacks its `=`.
   */
  function Parse(text: string): (entries: Option<seq<(string, string)>>)
    decreases |text|
  {
    if text == [] then Some([])
    else
      var eol := Find(text, '\n');
      var line := text[..eol];
      var eq := Find(line, '=');
      if eq == |line| then None
      else if eol == |text| then Some([(line[..eq], line[eq + 1..])])
      else
        match Parse(text[eol + 1..])
        case None => None
        case Some(rest) => Some([(line[..eq], line[eq + 1..])] + rest)
  }

  /** Keys carry no `=` or newline and values no newline, so every line splits back unambiguously. */
  predicate Writable(entries: seq<(string, string)>)
  {
    forall i :: 0 <= i < |entries| ==>
      '=' !in entries[i].0 && '\n' !in entries[i].0 && '\n' !in entries[i].1
  }

  lemma FindAfter(a: string, c: char, b: string)
    requires c !in a
    ensures Find(a + [c] + b, c) == |a|
  {
    assert (a + [c] + b)[|a|] == c;
  }

  /** One line in front of any text parses as that entry in front of what the text parses to. */
  lemma ParseLine(k: string, v: string, tail: string)
    requires '=' !in k && '\n' !in k && '\n' !in v
    ensures Parse(Line(k, v) + tail)
         == if Parse(tail).Some? then Some([(k, v)] + Parse(tail).value) else None
  {
    var text := Line(k, v) + tail;
    assert text == (k + "=" + v) + ['\n'] + tail;
    FindAfter(k + "=" + v, '\n', tail);
    var eol := |k| + 1 + |v|;
    var line := text[..eol];
    assert line == k + ['='] + v;
    FindAfter(k, '=', v);
    assert line[..|k|] == k && line[|k| + 1..] == v;
    assert text[eol + 1..] == tail;
  }

  /** Writing entries and reading the text back gives the same entries in the same order. */
  lemma {:induction false} ParseSerialize(entries: seq<(string, string)>)
    requires Writable(entries)
    ensures Parse(Serialize(entries)) == Some(entries)
    decreases |entries|
  {
    if entries != [] {
      var (k, v) := entries[0];
      assert Writable(entries[1..]);
      ParseSerialize(entries[1..]);
      ParseLine(k, v, Serialize(entries[1..]));
      assert [(k, v)] + entries[1..] == entries;
    }
  }

  /** The entries of a buffer in a given key order. */
  function Entries(order: seq<string>, buffer: map<string, string>): (entries: seq<(string, string)>)
    requires forall i :: 0 <= i < |order| ==> order[i] in buffer
    ensures |entries| == |order|
    ensures forall i :: 0 <= i < |order| ==> entries[i] == (order[i], buffer[order[i]])
  {
    seq(|order|, i requires 0 <= i < |order| => (order[i], buffer[order[i]]))
  }

  /** The map that a list of entries with distinct keys stands for. */
  function ToMap(entries: seq<(string, string)>): (m: map<string, string>)
    decreases |entries|
  {
    if entries == [] then map[] else ToMap(entries[..|entries| - 1])[entries[|entries| - 1].0 := entries[|entries| - 1].1]
  }

  lemma {:induction false} ToMapEntries(order: seq<string>, buffer: map<string, string>, n: nat)
    requires n <= |order|
    requires forall i :: 0 <= i < |order| ==> order[i] in buffer
    ensures ToMap(Entries(order, buffer)[..n]) == map k | k in order[..n] :: buffer[k]
    decreases n
  {
    if n > 0 {
      var e := Entries(order, buffer);
      assert e[..n][..n - 1] == e[..n - 1];
      ToMapEntries(order, buffer, n - 1);
      assert order[..n] == order[..n - 1] + [order[n - 1]];
    }
  }

  /** A key order that visits every key of the buffer exactly once, as a map's iteration does. */
  predicate Enumerates(order: seq<string>, buffer: map<string, string>)
  {
    && (forall i :: 0 <= i < |order| ==> order[i] in buffer)
    && (forall k :: k in buffer ==> k in order)
    && (forall i, j :: 0 <= i < j < |order| ==> order[i] != order[j])
  }

  /** A buffer's entries can be written unambiguously when its keys and values can. */
  lemma EntriesWritable(order: seq<string>, buffer: map<string, string>)
    requires forall i :: 0 <= i < |order| ==> order[i] in buffer
    requires forall k :: k in buffer ==> '=' !in k && '\n' !in k && '\n' !in buffer[k]
    ensures Writable(Entries(order, buffer))
  {
    var e := Entries(order, buffer);
    forall i | 0 <= i < |e|
      ensures '=' !in e[i].0 && '\n' !in e[i].0 && '\n' !in e[i].1
    {
      assert e[i] == (order[i], buffer[order[i]]);
    }
  }

  /** Collecting a buffer's entries, in an order that visits each key once, rebuilds the buffer. */
  lemma EntriesRebuildBuffer(order: seq<string>, buffer: map<string, string>)
    requires Enumerates(order, buffer)
    ensures ToMap(Entries(order, buffer)) == buffer
  {
    var e := Entries(order, buffer);
    ToMapEntries(order, buffer, |order|);
    assert e[..|order|] == e && order[..|order|] == order;
    var m := map k | k in order :: buffer[k];
    assert m.Keys == buffer.Keys;
  }

  /**
   * Whatever order the buffer is written in, reading the file back gives the entries in
   * that order, and collecting them into a map gives the buffer again.
   */
  lemma WriteThenRead(order: seq<string>, buffer: map<string, string>)
    requires Enumerates(order, buffer)
    requires forall k :: k in buffer ==> '=' !in k && '\n' !in k && '\n' !in buffer[k]
    ensures Parse(Serialize(Entries(order, buffer))) == Some(Entries(order, buffer))
    ensures ToMap(Entries(order, buffer)) == buffer
  {
    EntriesWritable(order, buffer);
    ParseSerialize(Entries(order, buffer));
    EntriesRebuildBuffer(order, buffer);
  }

  /** Builds the file text by appending one line per entry, in the buffer's iteration order. */
  method SettingString(order: seq<string>, buffer: map<string, string>) returns (text: string)
    requires forall i :: 0 <= i < |order| ==> order[i] in buffer
    ensures text == Serialize(Entries(order, buffer))
  {
    ghost var entries := Entries(order, buffer);
    text := "";
    var i := 0;
    while i < |order|
      invariant 0 <= i <= |order|
      invariant text == Serialize(entries[..i])
    {
      var key := order[i];
      text := text + key + "=" + buffer[key] + "\n";
      assert entries[..i + 1] == entries[..i] + [(key, buffer[key])];
      SerializeSnoc(entries[..i], key, buffer[key]);
      i := i + 1;
    }
    assert entries[..i] == entries;
  }

  // ---- the instance ----

  /** An open rcon connection; it remembers the commands sent over it. */
  datatype RconConnection = RconConnection(sent: seq<string>)

  const RconNotInitialized := "Failed to send rcon command, rcon connection is not initialized"
  const RconSendFailed := "Failed to send rcon command"

  /** The contents a missing server.properties is created with. */
  function InitialProperties(port: u32): (text: string)
  {
    "server-port=" + Decimal(port)
  }

  /** A single `key=value` line without a final newline reads back as that one entry. */
  lemma ParseLastLine(k: string, v: string)
    requires '=' !in k && '\n' !in k && '\n' !in v
    ensures Parse(k + "=" + v) == Some([(k, v)])
  {
    var text := k + "=" + v;
    assert text == k + ['='] + v;
    assert '\n' !in text;
    assert text[..|text|] == text;
    FindAfter(k, '=', v);
    assert text[..|k|] == k && text[|k| + 1..] == v;
  }

  /**
   * The file created for a new instance, which has no final newline, reads back as the one
   * `server-port` entry, whose value is the port.
   */
  lemma ParseInitialProperties(port: u32)
    ensures Parse(InitialProperties(port)) == Some([("server-port", Decimal(port))])
    ensures DecimalValue(Decimal(port)) == port as nat
  {
    var d := Decimal(port);
    assert '\n' !in d;
    assert InitialProperties(port) == "server-port" + "=" + d;
    ParseLastLine("server-port", d);
    DecimalRoundTrip(port);
  }

  class MinecraftInstance {
    var config: RestoreConfig
    /** The lifecycle state that the instance's own operations read and write. */
    const state: StateCell
    /** The backup task spawned at restore time. */
    const backup: Backup.BackupTask
    var propertiesBuffer: map<string, string>
    /** The server.properties file on disk, None while it does not exist. */
    var propertiesFile: Option<string>
    var rcon: Option<RconConnection>

    /**
     * Restore as the source wires it: the backup task receives a lifecycle cell of its own,
     * and the instance gets another, so the task never sees the instance's state.
     * `onDisk` is the properties file found, `readBack` what reading it yields.
     */
    constructor Restore(config: RestoreConfig, onDisk: Option<string>, readBack: map<string, string>)
      ensures this.config == config && state.value == Stopped
      ensures backup.Snapshot() == Backup.Spawned(config.backup_period) && backup.log == []
      ensures backup.state != state && backup.state.value == Stopped
      ensures fresh(state) && fresh(backup) && fresh(backup.state)
      ensures propertiesFile == Some(if onDisk.Some? then onDisk.value else InitialProperties(config.port))
      ensures propertiesBuffer == readBack && rcon == None
    {
      var taskState := new StateCell(Stopped);
      var task := new Backup.BackupTask(config.backup_period, taskState);
      this.config := config;
      state := new StateCell(Stopped);
      backup := task;
      propertiesFile := Some(if onDisk.Some? then onDisk.value else InitialProperties(config.port));
      propertiesBuffer := readBack;
      rcon := None;
    }

    /** Restore with one lifecycle cell shared between the instance and its backup task. */
    constructor RestoreSharingState(config: RestoreConfig, onDisk: Option<string>, readBack: map<string, string>)
      ensures this.config == config && state.value == Stopped
      ensures backup.Snapshot() == Backup.Spawned(config.backup_period) && backup.log == []
      ensures backup.state == state
      ensures fresh(state) && fresh(backup)
      ensures propertiesFile == Some(if onDisk.Some? then onDisk.value else InitialProperties(config.port))
      ensures propertiesBuffer == readBack && rcon == None
    {
      var shared := new StateCell(Stopped);
      var task := new Backup.BackupTask(config.backup_period, shared);
      this.config := config;
      state := shared;
      backup := task;
      propertiesFile := Some(if onDisk.Some? then onDisk.value else InitialProperties(config.port));
      propertiesBuffer := readBack;
      rcon := None;
    }

    /**
     * Replaces the buffer with what reading the file yielded; a failed read leaves it as it
     * was. `settingsAccepted` is whether every entry converted into a setting.
     */
    method ReadProperties(read: Result<map<string, string>, string>, settingsAccepted: bool)
      returns (r: Result<(), string>)
      modifies this`propertiesBuffer
      ensures read.Failure? ==> r == Failure(read.error) && propertiesBuffer == old(propertiesBuffer)
      ensures read.Success? ==> propertiesBuffer == read.value && (r.Success? <==> settingsAccepted)
    {
      if read.Failure? {
        return Failure(read.error);
      }
      propertiesBuffer := read.value;
      if !settingsAccepted {
        return Failure("a server property could not be converted into a setting");
      }
      return Success(());
    }

    /**
     * Truncates the properties file, then writes one `key=value` line per buffer entry in
     * the buffer's iteration order `order`.
     */
    method WritePropertiesToFile(order: seq<string>, created: bool, written: bool)
      returns (r: Result<(), string>)
      requires Enumerates(order, propertiesBuffer)
      modifies this`propertiesFile
      ensures r.Success? <==> created && written
      ensures !created ==> propertiesFile == old(propertiesFile)
      ensures created && !written ==> propertiesFile == Some("")
      ensures r.Success? ==> propertiesFile == Some(Serialize(Entries(order, propertiesBuffer)))
    {
      if !created {
        return Failure("Failed to open properties file");
      }
      propertiesFile := Some("");
      var text := SettingString(order, propertiesBuffer);
      if !written {
        return Failure("Failed to write properties to file");
      }
      propertiesFile := Some(text);
      return Success(());
    }

    /** Sends a command over rcon; `reply` is what the connection answers. */
    method SendRcon(cmd: string, reply: Result<string, string>) returns (r: Result<string, string>)
      modifies this`rcon
      ensures old(rcon).None? ==> r == Failure(RconNotInitialized) && rcon == old(rcon)
      ensures old(rcon).Some? ==> rcon == Some(RconConnection(old(rcon).value.sent + [cmd]))
      ensures old(rcon).Some? && reply.Success? ==> r == reply
      ensures old(rcon).Some? && reply.Failure? ==> r == Failure(RconSendFailed)
    {
      if rcon.None? {
        return Failure(RconNotInitialized);
      }
      rcon := Some(RconConnection(rcon.value.sent + [cmd]));
      if reply.Failure? {
        return Failure(RconSendFailed);
      }
      return reply;
    }
  }

  /**
   * As the source wires restore: even after the server is Running, a tick with a
   * one-second period takes no backup, because the task reads a cell nobody else writes.
   */
  method TickAfterStartAsWritten(config: RestoreConfig) returns (backups: nat)
    requires config.backup_period == Some(1)
    ensures backups == 0
  {
    var instance := new MinecraftInstance.Restore(config, None, map[]);
    instance.state.value := Running;
    instance.backup.Step(Backup.Tick);
    backups := |instance.backup.log|;
  }

  /** With the cell shared, the same tick takes the scheduled backup. */
  method TickAfterStartShared(config: RestoreConfig) returns (backups: nat)
    requires config.backup_period == Some(1)
    ensures backups == 1
  {
    var instance := new MinecraftInstance.RestoreSharingState(config, None, map[]);
    instance.state.value := Running;
    instance.backup.Step(Backup.Tick);
    backups := |instance.backup.log|;
  }

  /**
   * With the cell shared, a backup task left to run while the instance is Running follows
   * the schedule: `q` periods of ticks take `q` backups.
   */
  method ServeWhileRunningShared(config: RestoreConfig, q: nat) returns (backups: nat)
    requires config.backup_period.Some? && config.backup_period.value >= 1
    ensures backups == q
  {
    var instance := new MinecraftInstance.RestoreSharingState(config, None, map[]);
    instance.state.value := Running;
    ghost var start := instance.backup.Snapshot();
    Backup.PeriodicBackups(start, q);
    instance.backup.Serve(Backup.Ticks(q * config.backup_period.value));
    backups := |instance.backup.log|;
  }
}
