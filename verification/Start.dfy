/** Starting one leased candidate: read the run, patch it, and read it back if the patch
    failed. */
module Starts {
  import opened Wrappers
  import opened Admissions
  import C = Clusters

  /** The first half of a start: the candidate after the run was read, and whether a
      start patch goes out. */
  function TryStart(found: Option<C.PipelineRun>, c: Candidate): (Candidate, bool) {
    match found
    case None => (c.(outcome := Gone), false)
    case Some(r) =>
      if c.attempted && c.uid != r.uid then (c.(outcome := Gone), false)
      else
        var d := c.(uid := r.uid, attempted := true);
        if C.NoLongerStartable(r) then (d.(outcome := Gone), false) else (d, true)
  }

  /** The second half: the patch was applied, or it failed and the run is read back.
      Unless the read-back settles the matter the candidate stays a retry. */
  function AnswerStart(applied: bool, read: Option<C.PipelineRun>, c: Candidate): Candidate {
    if applied then c.(outcome := Succeeded)
    else
      match read
      case None => c.(outcome := Gone)
      case Some(r) =>
        if r.uid != c.uid || C.NoLongerStartable(r) then c.(outcome := Gone)
        else if C.StartConfirmed(r) then c.(outcome := Succeeded)
        else c
  }

  datatype Read = ReadFailed | Answered(found: Option<C.PipelineRun>)

  /** Everything the outside world decides during one start: whether the worker was
      cancelled, whether the key parses, what the reads and the patch answer, and
      whether a confirmed start could be reported to the provider. */
  datatype Answers = Answers(cancelled: bool, parses: bool, first: Read, applied: bool, second: Read, reported: bool)

  /** The candidate afterwards, and whether an error is returned. */
  function StartCandidate(a: Answers, c: Candidate): (Candidate, bool) {
    if a.cancelled then (c, true)
    else if !a.parses then (c.(outcome := Gone), false)
    else if a.first.ReadFailed? then (c, true)
    else
      var (d, sends) := TryStart(a.first.found, c);
      if !sends then (d, false)
      else if !a.applied && a.second.ReadFailed? then (d, true)
      else
        var e := AnswerStart(a.applied, if a.applied then None else a.second.found, d);
        (e, if e.outcome.Gone? then false else if e.outcome.Succeeded? then !a.reported else true)
  }

  /** The first read found the run that the candidate stands for, and it could be started. */
  predicate FoundStartable(a: Answers, c: Candidate) {
    && !a.cancelled && a.parses && a.first.Answered? && a.first.found.Some?
    && !(c.attempted && c.uid != a.first.found.value.uid)
    && !C.NoLongerStartable(a.first.found.value)
  }

  /** The key names no run; or the first read shows none, another one than was attempted, or
      one that is no longer startable; or the patch failed and the read-back shows that. */
  predicate SaysGone(a: Answers, c: Candidate) {
    && !a.cancelled
    && (|| !a.parses
        || (a.first.Answered?
            && (|| a.first.found.None?
                || (c.attempted && c.uid != a.first.found.value.uid)
                || C.NoLongerStartable(a.first.found.value)
                || (!a.applied && a.second.Answered?
                    && (|| a.second.found.None?
                        || a.second.found.value.uid != a.first.found.value.uid
                        || C.NoLongerStartable(a.second.found.value))))))
  }

  /** The patch was applied, or the read-back shows the same run as started. */
  predicate SaysStarted(a: Answers, c: Candidate) {
    && FoundStartable(a, c)
    && (|| a.applied
        || (a.second.Answered? && a.second.found.Some?
            && a.second.found.value.uid == a.first.found.value.uid
            && !C.NoLongerStartable(a.second.found.value) && a.second.found.value.state.Started?
            && !a.second.found.value.status.Pending? && a.second.found.value.reported))
  }

  /** What starting a candidate answers. It is given up, or started, exactly when the answers
      say so; otherwise it stays a retry, with an error. It is an attempt of the run that was
      read from then on, unless that run could not be read or is another one. */
  lemma StartAnswer(a: Answers, c: Candidate)
    requires c.outcome.Retry?
    ensures var (d, failed) := StartCandidate(a, c);
      && (d.outcome.Gone? <==> SaysGone(a, c))
      && (d.outcome.Succeeded? <==> SaysStarted(a, c))
      && (failed <==> d.outcome.Retry? || (d.outcome.Succeeded? && !a.reported))
      && d.key == c.key && d.reserved == c.reserved
      && (if !a.cancelled && a.parses && a.first.Answered? && a.first.found.Some?
             && !(c.attempted && c.uid != a.first.found.value.uid)
          then d.attempted && d.uid == a.first.found.value.uid
          else d.attempted == c.attempted && d.uid == c.uid)
  {
  }
}
