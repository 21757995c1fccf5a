/**
 * The client-facing error record, its HTTP status and text, and the `InstanceInfo`
 * projection every instance offers (src/traits/mod.rs).
 */
module Traits {
  import opened Wrappers
  import opened Types

  datatype ErrorInner =
    // I/O errors
    | FailedToReadFileOrDir | FailedToWriteFileOrDir | FailedToCreateFileOrDir
    | FailedToRemoveFileOrDir | FileOrDirNotFound | FiledOrDirAlreadyExists | IOError
    // standard input and output of the process
    | FailedToWriteStdin | FailedToReadStdout | StdinNotOpen | StdoutNotOpen
    | RconNotOpen | RconError | FailedToAcquireLock
    // network
    | FailedToUpload | FailedToDownload
    // instance operations
    | InvalidInstanceState | InstanceNotFound | PortInUse
    // config files
    | MalformedFile | FieldNotFound | ValueNotFound | TypeMismatch
    // version strings
    | MalformedVersionString | VersionNotFound
    // macros
    | FailedToRun | MacroNotFound
    // processes
    | FailedToExecute | FailedToAcquireStdin | FailedToAcquireStdout | FailedToAcquireStderr
    | APIChanged
    | UnsupportedOperation
    | MalformedRequest
    // users
    | UserNotFound | UsernameAlreadyExists | Unauthorized | PermissionDenied
    // database
    | DBInitError | DBWriteError | DBFetchError | DBPoolError
    | GatewayError
    // generic
    | NotFound | InternalError

  datatype Error = Error(inner: ErrorInner, detail: string)

  /** The HTTP status an error is answered with; the body is the error as JSON. */
  function StatusCode(inner: ErrorInner): (code: int)
    ensures code == 400 <==> inner == MalformedRequest
    ensures code == 403 <==> inner == PermissionDenied
    ensures code == 401 <==> inner == Unauthorized
    ensures code == 404 <==> inner == FileOrDirNotFound || inner == NotFound
    ensures code == 500 <==>
      inner !in {MalformedRequest, PermissionDenied, Unauthorized, FileOrDirNotFound, NotFound}
  {
    match inner
    case MalformedRequest => 400
    case PermissionDenied => 403
    case Unauthorized => 401
    case FileOrDirNotFound => 404
    case NotFound => 404
    case _ => 500
  }

  const DisplayPrefix := "Error: "

  /** The text of an error: a fixed prefix, then its detail. */
  function Display(e: Error): (s: string)
    ensures |s| == |DisplayPrefix| + |e.detail|
    ensures s[..|DisplayPrefix|] == DisplayPrefix && s[|DisplayPrefix|..] == e.detail
  {
    DisplayPrefix + e.detail
  }

  /** Reads the detail back out of a displayed error; None for text without the prefix. */
  function DetailOf(s: string): (d: Option<string>)
    ensures d.Some? <==> |s| >= |DisplayPrefix| && s[..|DisplayPrefix|] == DisplayPrefix
    ensures d.Some? ==> s == DisplayPrefix + d.value
  {
    if |s| >= |DisplayPrefix| && s[..|DisplayPrefix|] == DisplayPrefix
    then Some(s[|DisplayPrefix|..])
    else None
  }

  /** Displaying loses nothing but the kind: the detail comes back out of the text. */
  lemma DisplayRoundTrip(e: Error)
    ensures DetailOf(Display(e)) == Some(e.detail)
  {
    var s := Display(e);
    assert s[|DisplayPrefix|..] == e.detail;
  }

  /** The read-only summary of an instance. */
  datatype InstanceInfo = InstanceInfo(
    uuid: InstanceUuid,
    name: string,
    flavour: string,
    game_type: string,
    cmd_args: seq<string>,
    description: string,
    port: u32,
    min_ram: Option<u32>,
    max_ram: Option<u32>,
    creation_time: i64,
    path: string,
    auto_start: bool,
    restart_on_crash: bool,
    backup_period: Option<u32>,
    state: ServerState,
    player_count: Option<u32>,
    max_player_count: Option<u32>)

  /**
   * What each getter of an instance answered at the moment the projection was taken.
   * The getters that can fail carry a Result.
   */
  datatype GetterAnswers = GetterAnswers(
    uuid: InstanceUuid,
    name: string,
    flavour: string,
    game_type: string,
    cmd_args: seq<string>,
    description: string,
    port: u32,
    min_ram: Result<u32, Error>,
    max_ram: Result<u32, Error>,
    creation_time: i64,
    path: string,
    auto_start: bool,
    restart_on_crash: bool,
    backup_period: Result<Option<u32>, Error>,
    state: ServerState,
    player_count: Result<u32, Error>,
    max_player_count: Result<u32, Error>)

  /** Builds `InstanceInfo` from the getters' answers; errors become absent fields. */
  function GetInstanceInfo(g: GetterAnswers): (info: InstanceInfo)
    ensures info.min_ram.None? <==> g.min_ram.Failure?
    ensures info.max_ram.None? <==> g.max_ram.Failure?
    ensures info.player_count.None? <==> g.player_count.Failure?
    ensures info.max_player_count.None? <==> g.max_player_count.Failure?
    ensures g.min_ram.Success? ==> info.min_ram == Some(g.min_ram.value)
    ensures g.max_ram.Success? ==> info.max_ram == Some(g.max_ram.value)
    ensures g.player_count.Success? ==> info.player_count == Some(g.player_count.value)
    ensures g.max_player_count.Success? ==> info.max_player_count == Some(g.max_player_count.value)
    ensures g.backup_period.Failure? ==> info.backup_period == None
    ensures g.backup_period.Success? ==> info.backup_period == g.backup_period.value
    ensures info.uuid == g.uuid && info.name == g.name && info.flavour == g.flavour
    ensures info.game_type == g.game_type && info.cmd_args == g.cmd_args
    ensures info.description == g.description && info.port == g.port
    ensures info.creation_time == g.creation_time && info.path == g.path
    ensures info.auto_start == g.auto_start && info.restart_on_crash == g.restart_on_crash
    ensures info.state == g.state
  {
    InstanceInfo(
      g.uuid, g.name, g.flavour, g.game_type, g.cmd_args, g.description, g.port,
      Ok(g.min_ram), Ok(g.max_ram), g.creation_time, g.path, g.auto_start,
      g.restart_on_crash, UnwrapOr(Ok(g.backup_period), None), g.state,
      Ok(g.player_count), Ok(g.max_player_count))
  }

  /**
   * The summary cannot tell a failing backup-period getter from an instance without a
   * backup period: both show no period.
   */
  lemma BackupPeriodErrorLooksUnset(g: GetterAnswers)
    requires g.backup_period.Failure?
    ensures GetInstanceInfo(g) == GetInstanceInfo(g.(backup_period := Success(None)))
  {
  }
}
