/**
 * `scrubLibPath`: before Nuke starts, the Deadline library directories are taken out
 * of a colon-separated search path (LD_LIBRARY_PATH and the DYLD_* paths), so that
 * Nuke does not load the IlmImf library shipped with Deadline.
 */
module LibPath {
  import opened Wrappers
  import opened Text
  import opened Sequences

  const DeadlineMarker := "Deadline"

  /** The five search paths `scrubLibPaths` cleans, in the order it cleans them. */
  const ScrubbedVariables := ["LD_LIBRARY_PATH", "DYLD_LIBRARY_PATH", "DYLD_FALLBACK_LIBRARY_PATH",
                              "DYLD_FRAMEWORK_PATH", "DYLD_FALLBACK_FRAMEWORK_PATH"]

  /** `not re.search("Deadline", ldPath)`. */
  predicate OutsideDeadline(segment: string) {
    !Contains(segment, DeadlineMarker)
  }

  function NoDeadline(): string -> bool {
    segment => OutsideDeadline(segment)
  }

  /** The segments of a search path that survive the scrub, in their original order. */
  function KeptSegments(ldPaths: string): seq<string> {
    Filter(Split(ldPaths, ':'), NoDeadline())
  }

  /**
   * The value `scrubLibPath` writes to the process environment for a variable whose
   * current value is `current` (`None` when unset), or `None` when it writes nothing.
   */
  function ScrubbedValue(current: Option<string>): Option<string> {
    if current.None? || current.value == "" then None
    else
      var kept := KeptSegments(current.value);
      Some(if |kept| > 0 then Join(kept, ':') else "")
  }

  /** The `for ldPath in ldPaths` loop, appending every segment outside Deadline. */
  method FilterSegments(ldPaths: seq<string>) returns (newLDPaths: seq<string>)
    ensures newLDPaths == Filter(ldPaths, NoDeadline())
  {
    newLDPaths := [];
    var i := 0;
    while i < |ldPaths|
      invariant 0 <= i <= |ldPaths|
      invariant newLDPaths == Filter(ldPaths[..i], NoDeadline())
    {
      var ldPath := ldPaths[i];
      assert ldPaths[..i + 1] == ldPaths[..i] + [ldPath];
      FilterSnoc(ldPaths[..i], ldPath, NoDeadline());
      if !Contains(ldPath, DeadlineMarker) {
        newLDPaths := newLDPaths + [ldPath];
      }
      i := i + 1;
    }
    assert ldPaths[..i] == ldPaths;
  }

  /** The whole of `scrubLibPath` on the current value: split, filter, join. */
  method Scrub(current: Option<string>) returns (written: Option<string>)
    ensures written == ScrubbedValue(current)
  {
    if current.None? || current.value == "" {
      return None;
    }
    var ldPaths := Split(current.value, ':');
    var newLDPaths := FilterSegments(ldPaths);
    if |newLDPaths| > 0 {
      written := Some(Join(newLDPaths, ':'));
    } else {
      written := Some("");
    }
  }

  /** `Environment.GetEnvironmentVariable`: the Worker's own value, `None` when unset. */
  function WorkerValue(workerEnv: map<string, string>, name: string): Option<string> {
    if name in workerEnv then Some(workerEnv[name]) else None
  }

  /** The process environment after `scrubLibPath(name)`. */
  function ScrubInto(env: map<string, string>, workerEnv: map<string, string>, name: string): map<string, string> {
    match ScrubbedValue(WorkerValue(workerEnv, name))
    case None => env
    case Some(w) => env[name := w]
  }

  /** The process environment after `scrubLibPath` of each name in turn. */
  function ScrubAll(env: map<string, string>, workerEnv: map<string, string>, names: seq<string>): map<string, string>
    decreases |names|
  {
    if |names| == 0 then env else ScrubAll(ScrubInto(env, workerEnv, names[0]), workerEnv, names[1..])
  }

  // ---------------------------------------------------------------------------
  // Properties
  // ---------------------------------------------------------------------------

  /**
   * A segment of the old path is kept exactly when it does not mention Deadline, and
   * the written value splits back into exactly the kept segments, in order.
   */
  lemma ScrubKeepsExactly(v: string, segment: string)
    requires v != ""
    ensures ScrubbedValue(Some(v)).Some?
    ensures segment in KeptSegments(v) <==> segment in Split(v, ':') && !Contains(segment, DeadlineMarker)
    ensures |KeptSegments(v)| > 0 ==> Split(ScrubbedValue(Some(v)).value, ':') == KeptSegments(v)
    ensures |KeptSegments(v)| == 0 ==> ScrubbedValue(Some(v)).value == ""
  {
    FilterMember(Split(v, ':'), NoDeadline(), segment);
    KeptSegmentsColonFree(v);
    if |KeptSegments(v)| > 0 {
      SplitJoin(KeptSegments(v), ':');
    }
  }

  /** No kept segment holds a ':', so joining and splitting again are inverse. */
  lemma KeptSegmentsColonFree(v: string)
    ensures FreeOf(KeptSegments(v), ':')
  {
    var kept := KeptSegments(v);
    SplitShape(v, ':');
    forall i | 0 <= i < |kept| ensures ':' !in kept[i] {
      FilterMember(Split(v, ':'), NoDeadline(), kept[i]);
    }
  }

  /** Nothing is written when the variable is unset or empty. */
  lemma UnsetOrEmptyUntouched(current: Option<string>)
    ensures ScrubbedValue(current).None? <==> current.None? || current == Some("")
  {
  }

  /**
   * Scrubbing the scrubbed value changes nothing more: it is written back unchanged,
   * or, when it is empty, not written at all.
   */
  lemma ScrubIdempotent(v: string)
    requires ScrubbedValue(Some(v)).Some?
    ensures var w := ScrubbedValue(Some(v)).value;
      ScrubbedValue(Some(w)) == if w == "" then None else Some(w)
  {
    var w := ScrubbedValue(Some(v)).value;
    var kept := KeptSegments(v);
    if w != "" {
      assert |kept| > 0;
      KeptSegmentsColonFree(v);
      SplitJoin(kept, ':');
      FilterIdempotent(Split(v, ':'), NoDeadline());
      assert KeptSegments(w) == kept;
    }
  }

  /** A single directory inside Deadline becomes the empty value, which is still written. */
  lemma SingleDeadlineDirectory(v: string)
    requires ':' !in v && Contains(v, DeadlineMarker)
    ensures ScrubbedValue(Some(v)) == Some("")
  {
    SplitFree(v, ':');
    assert KeptSegments(v) == [] by {
      assert [v][..0] == [];
    }
  }

  /** A Deadline directory between two others is removed and the others are joined. */
  lemma MiddleDirectoryRemoved(a: string, d: string, b: string)
    requires ':' !in a && ':' !in d && ':' !in b
    requires OutsideDeadline(a) && OutsideDeadline(b) && Contains(d, DeadlineMarker)
    ensures ScrubbedValue(Some(a + ":" + d + ":" + b)) == Some(a + ":" + b)
  {
    var v := a + ":" + d + ":" + b;
    assert v == a + [':'] + (d + [':'] + b);
    SplitAfterField(a, d + [':'] + b, ':');
    SplitAfterField(d, b, ':');
    SplitFree(b, ':');
    var parts := [a, d, b];
    assert Split(v, ':') == parts;
    assert parts[..2] == [a, d] && [a, d][..1] == [a] && [a][..0] == [];
    assert NoDeadline()(a) && !NoDeadline()(d) && NoDeadline()(b);
    assert Filter([a], NoDeadline()) == [a];
    assert Filter([a, d], NoDeadline()) == [a];
    assert KeptSegments(v) == [a, b];
    assert [a, b][1..] == [b];
    assert Join([a, b], ':') == a + [':'] + b;
    assert a + ":" + b == a + [':'] + b;
    assert |v| > 0;
  }

  /**
   * After scrubbing a list of variables, each listed one holds its scrubbed value (or is
   * as before when nothing was written) and every other variable is as before.
   */
  lemma {:induction false} ScrubAllEffect(env: map<string, string>, workerEnv: map<string, string>,
                                          names: seq<string>, key: string)
    ensures var after := ScrubAll(env, workerEnv, names);
      var w := ScrubbedValue(WorkerValue(workerEnv, key));
      && (key in names && w.Some? ==> key in after && after[key] == w.value)
      && (key !in names || w.None? ==> (key in after <==> key in env) && (key in env ==> after[key] == env[key]))
    decreases |names|
  {
    if |names| > 0 {
      ScrubAllEffect(ScrubInto(env, workerEnv, names[0]), workerEnv, names[1..], key);
      assert names == [names[0]] + names[1..];
    }
  }

  /** The set of variables is unchanged except for the scrubbed ones that get written. */
  lemma {:induction false} ScrubAllKeys(env: map<string, string>, workerEnv: map<string, string>,
                                        names: seq<string>)
    ensures ScrubAll(env, workerEnv, names).Keys
      == env.Keys + (set n | n in names && ScrubbedValue(WorkerValue(workerEnv, n)).Some?)
    decreases |names|
  {
    if |names| > 0 {
      ScrubAllKeys(ScrubInto(env, workerEnv, names[0]), workerEnv, names[1..]);
      assert names == [names[0]] + names[1..];
    }
  }

  /**
   * The values are read from the Worker's environment, not from what was written, so
   * scrubbing the process environment a second time changes nothing.
   */
  lemma ScrubAllIdempotent(env: map<string, string>, workerEnv: map<string, string>, names: seq<string>)
    ensures ScrubAll(ScrubAll(env, workerEnv, names), workerEnv, names) == ScrubAll(env, workerEnv, names)
  {
    var once := ScrubAll(env, workerEnv, names);
    var twice := ScrubAll(once, workerEnv, names);
    ScrubAllKeys(env, workerEnv, names);
    ScrubAllKeys(once, workerEnv, names);
    forall key | key in twice ensures twice[key] == once[key] {
      ScrubAllEffect(env, workerEnv, names, key);
      ScrubAllEffect(once, workerEnv, names, key);
    }
  }
}
