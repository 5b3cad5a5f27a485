/**
 * The target-directory guard: `check_target_dir`, and the same check that both
 * scaffold pipelines repeat before running the generator. The filesystem is
 * reduced to the state of the one directory `<directory>/<name>`.
 */
module TargetDir {
  import opened Wrappers
  import opened Text

  /** What the filesystem says about `<directory>/<name>`. */
  datatype DirState =
    | Absent      // nothing at the path
    | Empty       // a readable directory without entries
    | NonEmpty    // a readable directory with at least one entry
    | Unreadable  // something exists but cannot be listed

  /** `Path::join` of a relative name onto a base, with `/` as separator. */
  function Join(base: string, name: string): (path: string)
    ensures |path| == |base| + 1 + |name|
    ensures path[..|base|] == base && path[|base|] == '/' && path[|base| + 1..] == name
  {
    base + "/" + name
  }

  /** The closing advice of `check_target_dir`. */
  const ChooseAnother := "choose another name or an empty directory."
  /** The closing words of the pipelines' own check. */
  const CreationAborted := "creation aborted."

  /** The refusal text: name, reason, path, then the caller's closing words. */
  function Refusal(name: string, path: string, state: DirState, tail: string): string
  {
    "target folder \"" + name + "\" " + (if state == NonEmpty then "is not empty" else "already exists")
      + " (path: " + path + "), " + tail
  }

  /** The refusal names the folder, the reason, the path and the closing words. */
  lemma RefusalMentions(name: string, path: string, state: DirState, tail: string)
    ensures var msg := Refusal(name, path, state, tail);
      && HasOcc(msg, name) && HasOcc(msg, path) && HasOcc(msg, tail)
      && HasOcc(msg, if state == NonEmpty then "is not empty" else "already exists")
  {
    var reason := if state == NonEmpty then "is not empty" else "already exists";
    var t1 := "target folder \"" + name;
    var t2 := t1 + "\" ";
    var t3 := t2 + reason;
    var t4 := t3 + " (path: ";
    var t5 := t4 + path;
    var t6 := t5 + "), ";
    OccursInSelf(name);
    OccursInSelf(reason);
    OccursInSelf(path);
    OccursInSelf(tail);
    OccursInConcat("target folder \"", name, name);
    OccursInConcat(t1, "\" ", name);
    OccursInConcat(t2, reason, name);
    OccursInConcat(t2, reason, reason);
    OccursInConcat(t3, " (path: ", name);
    OccursInConcat(t3, " (path: ", reason);
    OccursInConcat(t4, path, name);
    OccursInConcat(t4, path, reason);
    OccursInConcat(t4, path, path);
    OccursInConcat(t5, "), ", name);
    OccursInConcat(t5, "), ", reason);
    OccursInConcat(t5, "), ", path);
    OccursInConcat(t6, tail, name);
    OccursInConcat(t6, tail, reason);
    OccursInConcat(t6, tail, path);
    OccursInConcat(t6, tail, tail);
  }

  /**
   * The guard shared by the three callers. A directory that exists but cannot
   * be listed is refused like a non-empty one, with its own reason.
   */
  function Guard(directory: string, name: string, state: DirState, tail: string): (r: Result<Unit, string>)
    ensures r.Ok? <==> state == Absent || state == Empty
  {
    match state
    case Absent => Ok(Unit)
    case Empty => Ok(Unit)
    case _ => Err(Refusal(name, Join(directory, name), state, tail))
  }

  /** A refusal names the project, its path, the reason and the caller's closing words. */
  lemma GuardMentions(directory: string, name: string, state: DirState, tail: string)
    ensures var r := Guard(directory, name, state, tail);
      && (r.Err? ==> HasOcc(r.error, name) && HasOcc(r.error, Join(directory, name)) && HasOcc(r.error, tail))
      && (state == NonEmpty ==> r.Err? && HasOcc(r.error, "is not empty"))
      && (state == Unreadable ==> r.Err? && HasOcc(r.error, "already exists"))
  {
    if state != Absent && state != Empty {
      RefusalMentions(name, Join(directory, name), state, tail);
    }
  }

  /** `check_target_dir`: Ok exactly when the project directory is absent or empty. */
  function CheckTargetDir(directory: string, name: string, state: DirState): (r: Result<Unit, string>)
    ensures r.Ok? <==> state == Absent || state == Empty
    ensures r.Err? ==> HasOcc(r.error, name) && HasOcc(r.error, Join(directory, name)) && HasOcc(r.error, ChooseAnother)
  {
    GuardMentions(directory, name, state, ChooseAnother);
    Guard(directory, name, state, ChooseAnother)
  }

  /** The pipelines refuse exactly the directories `check_target_dir` refuses. */
  lemma PipelineGuardAgrees(directory: string, name: string, state: DirState)
    ensures Guard(directory, name, state, CreationAborted).Ok? == CheckTargetDir(directory, name, state).Ok?
    ensures Guard(directory, name, state, CreationAborted).Err? ==>
      HasOcc(Guard(directory, name, state, CreationAborted).error, CreationAborted)
  {
    GuardMentions(directory, name, state, CreationAborted);
  }
}
