/** `FileUploader`: a dropped audio file is checked (signed-in user, one file,
    at most 50 MiB), stored under `userId/uuid.ext`, measured, and recorded as a
    track. While the storage upload runs a progress bar creeps towards 90%. */
module FileUploader {
  import opened Common

  /** `50 * 1024 * 1024` bytes. */
  const MAX_FILE_SIZE: nat := 50 * 1024 * 1024

  /** The simulated progress stops here until the upload returns. */
  const PROGRESS_CAP: real := 90.0

  /** Each tick adds `Math.random() * 15`, a value in [0, 15). */
  const MAX_INCREMENT: real := 15.0

  /** A browser `File`, reduced to its name and size in bytes. */
  datatype File = File(name: string, size: nat)

  /** `name.split('.').pop()`: the text after the last '.', or the whole name
      when it has none. */
  function Extension(name: string): (ext: string)
    ensures '.' !in ext
    ensures |ext| <= |name| && ext == name[|name| - |ext|..]
    ensures |ext| < |name| ==> name[|name| - |ext| - 1] == '.'
  {
    if name == [] then []
    else if name[|name| - 1] == '.' then []
    else
      var front := name[..|name| - 1];
      var ext := Extension(front) + [name[|name| - 1]];
      assert name[|name| - |ext|..] == front[|front| - |ext| + 1..] + [name[|name| - 1]];
      ext
  }

  /** The extension is the only dot-free tail of the name that is either the
      whole name or preceded by a dot: it starts right after the last dot. */
  lemma ExtensionUnique(name: string, e: string)
    requires '.' !in e
    requires |e| <= |name| && e == name[|name| - |e|..]
    requires |e| == |name| || name[|name| - |e| - 1] == '.'
    ensures Extension(name) == e
  {
    var x := Extension(name);
    assert |x| == |e|;
  }

  /** A name with no dot is its own extension. */
  lemma ExtensionWithoutDot(name: string)
    requires '.' !in name
    ensures Extension(name) == name
  {
    ExtensionUnique(name, name);
  }

  /** Whatever precedes the last dot does not matter. */
  lemma ExtensionAfterLastDot(stem: string, ext: string)
    requires '.' !in ext
    ensures Extension(stem + "." + ext) == ext
  {
    var name := stem + "." + ext;
    assert name[|name| - |ext|..] == ext;
    ExtensionUnique(name, ext);
  }

  /** `${crypto.randomUUID()}.${fileExt}` */
  function FileName(uuid: string, ext: string): string
  {
    uuid + "." + ext
  }

  /** `${user.id}/${fileName}` */
  function StoragePath(userId: string, fileName: string): string
  {
    userId + "/" + fileName
  }

  /** A path built from a dot-free extension lies in the user's folder and ends
      with that extension. */
  lemma PathParts(userId: string, uuid: string, ext: string)
    requires '.' !in ext
    ensures userId + "/" <= StoragePath(userId, FileName(uuid, ext))
    ensures '/' !in userId ==> TakeUntil(StoragePath(userId, FileName(uuid, ext)), '/') == userId
    ensures Extension(StoragePath(userId, FileName(uuid, ext))) == ext
  {
    var path := StoragePath(userId, FileName(uuid, ext));
    assert path == userId + "/" + (uuid + "." + ext);
    assert path == (userId + "/" + uuid) + "." + ext;
    ExtensionAfterLastDot(userId + "/" + uuid, ext);
    if '/' !in userId {
      TakeUntilJoin(userId, '/', uuid + "." + ext);
    }
  }

  /** The stored object lives in the user's own folder and keeps the dropped
      file's extension. */
  lemma StoragePathParts(userId: string, uuid: string, name: string)
    ensures userId + "/" <= StoragePath(userId, FileName(uuid, Extension(name)))
    ensures '/' !in userId ==>
      TakeUntil(StoragePath(userId, FileName(uuid, Extension(name))), '/') == userId
    ensures Extension(StoragePath(userId, FileName(uuid, Extension(name)))) == Extension(name)
  {
    PathParts(userId, uuid, Extension(name));
  }

  /** What the validation chain at the top of `onDrop` decides. */
  datatype Decision =
    | SignInRequired
    | NothingDropped
    | TooLarge(file: File)
    | Accept(file: File, path: string)

  /** The checks before any upload: a user, a first accepted file, the size gate. */
  function DecideDrop(user: Option<AuthUser>, accepted: seq<File>, uuid: string): (d: Decision)
    ensures d.SignInRequired? <==> user.None?
    ensures d.NothingDropped? <==> user.Some? && accepted == []
    ensures d.TooLarge? <==> user.Some? && accepted != [] && accepted[0].size > MAX_FILE_SIZE
    ensures d.Accept? <==> user.Some? && accepted != [] && accepted[0].size <= MAX_FILE_SIZE
    ensures d.TooLarge? || d.Accept? ==> d.file == accepted[0]
  {
    if user.None? then SignInRequired
    else if accepted == [] then NothingDropped
    else
      var file := accepted[0];
      if file.size > MAX_FILE_SIZE then TooLarge(file)
      else Accept(file, StoragePath(user.value.id, FileName(uuid, Extension(file.name))))
  }

  /** An accepted file goes into the user's own folder, under the given
      uuid, and keeps its extension. */
  lemma AcceptedPath(user: AuthUser, accepted: seq<File>, uuid: string)
    requires DecideDrop(Some(user), accepted, uuid).Accept?
    ensures user.id + "/" <= DecideDrop(Some(user), accepted, uuid).path
    ensures '/' !in user.id ==> TakeUntil(DecideDrop(Some(user), accepted, uuid).path, '/') == user.id
    ensures Extension(DecideDrop(Some(user), accepted, uuid).path) == Extension(accepted[0].name)
  {
    StoragePathParts(user.id, uuid, accepted[0].name);
  }

  /** The size gate is inclusive: exactly 50 MiB goes through, one byte more does not. */
  lemma SizeGateBoundary(user: AuthUser, name: string, uuid: string)
    ensures DecideDrop(Some(user), [File(name, 52428800)], uuid).Accept?
    ensures DecideDrop(Some(user), [File(name, 52428801)], uuid).TooLarge?
  {
  }

  /** The values the progress interval hands to `setProgress`, starting from
      `current`, for the ticks that fire before the upload returns: each tick
      adds its increment; the first total at or above 90 is shown as 90 and
      stops the interval. */
  function Ticks(current: real, increments: seq<real>): (shown: seq<real>)
    ensures |shown| <= |increments|
    decreases |increments|
  {
    if increments == [] then []
    else
      var next := current + increments[0];
      if next >= PROGRESS_CAP then [PROGRESS_CAP] else [next] + Ticks(next, increments[1..])
  }

  predicate ValidIncrements(increments: seq<real>)
  {
    forall k :: 0 <= k < |increments| ==> 0.0 <= increments[k] < MAX_INCREMENT
  }

  /** The shown progress never falls, never passes 90, and reaches 90 only on
      the tick that stops the interval; if ticks are left over, it did stop. */
  lemma {:induction false} TicksShape(current: real, increments: seq<real>)
    requires 0.0 <= current < PROGRESS_CAP
    requires ValidIncrements(increments)
    ensures forall k :: 0 <= k < |Ticks(current, increments)| ==>
      current <= Ticks(current, increments)[k] <= PROGRESS_CAP
    ensures forall j, k :: 0 <= j <= k < |Ticks(current, increments)| ==>
      Ticks(current, increments)[j] <= Ticks(current, increments)[k]
    ensures forall k :: 0 <= k < |Ticks(current, increments)| - 1 ==>
      Ticks(current, increments)[k] < PROGRESS_CAP
    ensures |Ticks(current, increments)| < |increments| ==>
      Ticks(current, increments) != [] &&
      Ticks(current, increments)[|Ticks(current, increments)| - 1] == PROGRESS_CAP
    decreases |increments|
  {
    if increments != [] {
      var next := current + increments[0];
      if next < PROGRESS_CAP {
        TicksShape(next, increments[1..]);
      }
    }
  }

  /** `simulateProgress`: the interval's running total, run for the ticks that
      fire before the upload call returns. */
  method SimulateProgress(increments: seq<real>) returns (shown: seq<real>)
    requires ValidIncrements(increments)
    ensures shown == Ticks(0.0, increments)
    ensures forall k :: 0 <= k < |shown| ==> 0.0 <= shown[k] <= PROGRESS_CAP
  {
    var currentProgress := 0.0;
    shown := [];
    var i := 0;
    while i < |increments|
      invariant 0 <= i <= |increments|
      invariant 0.0 <= currentProgress < PROGRESS_CAP
      invariant shown + Ticks(currentProgress, increments[i..]) == Ticks(0.0, increments)
    {
      assert increments[i..][1..] == increments[i + 1..];
      currentProgress := currentProgress + increments[i];
      if currentProgress >= PROGRESS_CAP {
        shown := shown + [PROGRESS_CAP];
        break;
      }
      shown := shown + [currentProgress];
      i := i + 1;
    }
    TicksShape(0.0, increments);
  }

  /** The row inserted into `tracks`. */
  datatype TrackRow = TrackRow(userId: string, storagePath: string, filename: string, duration: real)

  /** How the duration probe ends: `loadedmetadata` fires with a duration, or
      the browser cannot read the file and fires `error` instead. */
  datatype Probe = Loaded(duration: real) | Unreadable

  /** The uploader's two pieces of state, with ghost logs of what it shows and
      what it sends to the backend. */
  class Uploader {
    var uploading: bool
    var progress: real
    /** Every value passed to `setProgress`, in order. */
    ghost var progressLog: seq<real>
    /** Every path handed to the storage upload. */
    ghost var storedPaths: seq<string>
    /** Every row sent to the `tracks` insert, whether or not the insert
        succeeded. */
    ghost var sentRows: seq<TrackRow>

    constructor ()
      ensures !uploading && progress == 0.0
      ensures progressLog == [] && storedPaths == [] && sentRows == []
    {
      uploading, progress := false, 0.0;
      progressLog, storedPaths, sentRows := [], [], [];
    }

    /** `disabled: uploading`: the drop zone takes no drop during an attempt. */
    predicate Accepting()
      reads this
    {
      !uploading
    }

    /** The start of an accepted attempt, up to the `setProgress(100)` after
        the storage upload returns. */
    method BeginAttempt(path: string, increments: seq<real>)
      requires ValidIncrements(increments)
      modifies this
      ensures uploading && progress == 100.0
      ensures progressLog == old(progressLog) + [0.0] + Ticks(0.0, increments) + [100.0]
      ensures storedPaths == old(storedPaths) + [path]
      ensures sentRows == old(sentRows)
    {
      uploading := true;
      progress := 0.0;
      progressLog := progressLog + [0.0];
      var shown := SimulateProgress(increments);
      if shown != [] {
        progress := shown[|shown| - 1];
      }
      progressLog := progressLog + shown;
      storedPaths := storedPaths + [path];
      progress := 100.0;
      progressLog := progressLog + [100.0];
    }

    /** The `finally` block. */
    method Finish()
      modifies this`uploading, this`progress, this`progressLog
      ensures !uploading && progress == 0.0
      ensures progressLog == old(progressLog) + [0.0]
    {
      uploading := false;
      progress := 0.0;
      progressLog := progressLog + [0.0];
    }

    /** The `try` block of `onDrop` as written, for a file that passed the
        checks. The duration is awaited on `loadedmetadata` alone, so for a
        file the browser cannot read the await never settles: the `finally`
        block never runs and `uploading` stays true. `uploadOk` and `insertOk`
        stand for the two backend calls returning no error, and the result is
        the track id passed to `onUploadComplete`. */
    method Attempt(userId: string, file: File, path: string, increments: seq<real>,
                   uploadOk: bool, probe: Probe, insertOk: bool, trackId: string)
      returns (completed: Option<string>)
      requires ValidIncrements(increments)
      modifies this
      ensures storedPaths == old(storedPaths) + [path]
      ensures completed == (if uploadOk && probe.Loaded? && insertOk then Some(trackId) else None)
      ensures sentRows == old(sentRows) +
        (if uploadOk && probe.Loaded? then [TrackRow(userId, path, file.name, probe.duration)] else [])
      ensures uploadOk && probe.Unreadable? ==>
        && uploading && progress == 100.0
        && progressLog == old(progressLog) + [0.0] + Ticks(0.0, increments) + [100.0]
      ensures !(uploadOk && probe.Unreadable?) ==>
        && !uploading && progress == 0.0
        && progressLog == old(progressLog) + [0.0] + Ticks(0.0, increments) + [100.0] + [0.0]
    {
      BeginAttempt(path, increments);
      completed := None;
      if uploadOk {
        match probe
        case Unreadable =>
          return;
        case Loaded(duration) =>
          sentRows := sentRows + [TrackRow(userId, path, file.name, duration)];
          if insertOk {
            completed := Some(trackId);
          }
      }
      Finish();
    }

    /** The `try` block with the duration probe also settling on the `error`
        event, so that an unreadable file fails the attempt like any other
        error and the `finally` block always runs. */
    method AttemptSettling(userId: string, file: File, path: string, increments: seq<real>,
                           uploadOk: bool, probe: Probe, insertOk: bool, trackId: string)
      returns (completed: Option<string>)
      requires ValidIncrements(increments)
      modifies this
      ensures storedPaths == old(storedPaths) + [path]
      ensures completed == (if uploadOk && probe.Loaded? && insertOk then Some(trackId) else None)
      ensures sentRows == old(sentRows) +
        (if uploadOk && probe.Loaded? then [TrackRow(userId, path, file.name, probe.duration)] else [])
      ensures !uploading && progress == 0.0
      ensures progressLog == old(progressLog) + [0.0] + Ticks(0.0, increments) + [100.0] + [0.0]
    {
      BeginAttempt(path, increments);
      completed := None;
      if uploadOk && probe.Loaded? {
        sentRows := sentRows + [TrackRow(userId, path, file.name, probe.duration)];
        if insertOk {
          completed := Some(trackId);
        }
      }
      Finish();
    }

    /** `onDrop` as written: nothing happens unless the checks accept the
        drop; an accepted file goes through the attempt with its storage path.
        The attempt ends with the drop zone accepting again, except when the
        upload succeeds and the file cannot be read, where it stays closed. */
    method OnDrop(user: Option<AuthUser>, accepted: seq<File>, uuid: string, increments: seq<real>,
                  uploadOk: bool, probe: Probe, insertOk: bool, trackId: string)
      returns (completed: Option<string>)
      requires ValidIncrements(increments)
      modifies this
      ensures !DecideDrop(user, accepted, uuid).Accept? ==> unchanged(this) && completed.None?
      ensures DecideDrop(user, accepted, uuid).Accept? ==>
        && storedPaths == old(storedPaths) + [DecideDrop(user, accepted, uuid).path]
        && completed == (if uploadOk && probe.Loaded? && insertOk then Some(trackId) else None)
        && (uploading <==> uploadOk && probe.Unreadable?)
        && progress == (if uploadOk && probe.Unreadable? then 100.0 else 0.0)
    {
      var d := DecideDrop(user, accepted, uuid);
      if !d.Accept? {
        return None;
      }
      completed := Attempt(user.value.id, d.file, d.path, increments, uploadOk, probe, insertOk, trackId);
    }

    /** `onDrop` with the duration probe settling on errors too: every
        accepted attempt ends with the drop zone accepting again. */
    method OnDropSettling(user: Option<AuthUser>, accepted: seq<File>, uuid: string, increments: seq<real>,
                          uploadOk: bool, probe: Probe, insertOk: bool, trackId: string)
      returns (completed: Option<string>)
      requires ValidIncrements(increments)
      modifies this
      ensures !DecideDrop(user, accepted, uuid).Accept? ==> unchanged(this) && completed.None?
      ensures DecideDrop(user, accepted, uuid).Accept? ==>
        && storedPaths == old(storedPaths) + [DecideDrop(user, accepted, uuid).path]
        && completed == (if uploadOk && probe.Loaded? && insertOk then Some(trackId) else None)
        && !uploading && progress == 0.0
    {
      var d := DecideDrop(user, accepted, uuid);
      if !d.Accept? {
        return None;
      }
      completed := AttemptSettling(user.value.id, d.file, d.path, increments, uploadOk, probe, insertOk, trackId);
    }
  }

  /** As written, a small file that stores fine but cannot be read as audio
      leaves the uploader stuck: still uploading, so the drop zone refuses
      every later drop. */
  method StuckAfterUnreadableFile() returns (uploader: Uploader)
    ensures uploader.uploading && !uploader.Accepting()
  {
    uploader := new Uploader();
    var completed := uploader.Attempt("u1", File("song.mp3", 1000), "u1/id.mp3", [],
                                      true, Unreadable, true, "t1");
  }

  /** With the probe settling on errors too, the same attempt ends with the
      drop zone accepting again. */
  method RecoversAfterUnreadableFile() returns (uploader: Uploader)
    ensures !uploader.uploading && uploader.Accepting()
  {
    uploader := new Uploader();
    var completed := uploader.AttemptSettling("u1", File("song.mp3", 1000), "u1/id.mp3", [],
                                              true, Unreadable, true, "t1");
  }
}
