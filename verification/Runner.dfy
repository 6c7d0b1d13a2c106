/**
 `GraphRunner` (web/runner.py) as it mutates its files and its `previous` dictionary: the
 admission protocol before a run, and the section stream during it.
 */
module Runner {
  import opened Wrappers
  import opened TaskStore
  import opened Engine
  import Text

  // ---------------------------------------------------------------- emitting changed sections

  datatype Report = Report(section: string, text: string)

  predicate Blank(text: string) {
    Text.Strip(text) == ""
  }

  /** The last nonblank text reported for a section. */
  function Last(reports: seq<Report>, section: string): Option<string> {
    if reports == [] then None
    else
      var r := reports[|reports| - 1];
      if r.section == section && !Blank(r.text) then Some(r.text) else Last(reports[..|reports| - 1], section)
  }

  /** What is emitted: each nonblank report that differs from the section's previous nonblank text. */
  function Emitted(reports: seq<Report>): seq<Report> {
    if reports == [] then []
    else
      var front, r := reports[..|reports| - 1], reports[|reports| - 1];
      if Blank(r.text) || Last(front, r.section) == Some(r.text) then Emitted(front) else Emitted(front) + [r]
  }

  function Flatten(states: seq<seq<Report>>): seq<Report> {
    if states == [] then [] else Flatten(states[..|states| - 1]) + states[|states| - 1]
  }

  /** Saving every emission leaves, for each section, the last nonblank text the graph produced. */
  lemma {:induction false} EmissionsKeepTheLast(reports: seq<Report>, section: string)
    ensures Last(Emitted(reports), section) == Last(reports, section)
  {
    if reports == [] {
    } else {
      var front, r := reports[..|reports| - 1], reports[|reports| - 1];
      EmissionsKeepTheLast(front, section);
      assert (Emitted(front) + [r])[..|Emitted(front)|] == Emitted(front);
    }
  }

  /** No section is emitted twice in a row with the same text, and nothing blank is emitted. */
  lemma {:induction false} EmissionsChange(reports: seq<Report>, j: nat)
    requires j < |Emitted(reports)|
    ensures var es := Emitted(reports);
            !Blank(es[j].text) && Last(es[..j], es[j].section) != Some(es[j].text)
  {
    var front, r := reports[..|reports| - 1], reports[|reports| - 1];
    var es, before := Emitted(reports), Emitted(front);
    if j < |before| {
      EmissionsChange(front, j);
      assert es[..j] == before[..j];
    } else {
      EmissionsKeepTheLast(front, r.section);
      assert es[..j] == before;
    }
  }

  /** The loop's dictionary is the table of last nonblank texts. */
  ghost predicate Remembers(previous: map<string, string>, reports: seq<Report>) {
    forall s :: Last(reports, s) == if s in previous then Some(previous[s]) else None
  }

  lemma {:induction false} RemembersNext(previous: map<string, string>, seen: seq<Report>, r: Report)
    requires Remembers(previous, seen)
    ensures Blank(r.text) || (r.section in previous && previous[r.section] == r.text) ==>
              Emitted(seen + [r]) == Emitted(seen) && Remembers(previous, seen + [r])
    ensures !Blank(r.text) && !(r.section in previous && previous[r.section] == r.text) ==>
              Emitted(seen + [r]) == Emitted(seen) + [r] && Remembers(previous[r.section := r.text], seen + [r])
  {
    assert (seen + [r])[..|seen|] == seen;
  }

  // ---------------------------------------------------------------- the files a finished admission leaves

  /** A fresh run gets its tag unless the key file has been cut short. */
  predicate AdmitsFresh(f: Files, p: Shape) {
    p.checkpoint ==> !f.key.Short?
  }

  function KeyAfter(f: Files, secret: nat): KeyFile {
    if f.key.Absent? then Full(secret) else f.key
  }

  function AdmitFiles(f: Files, t: TaskId, p: Shape, creds: Creds, secret: nat): Files {
    var cleared := if HasCheckpoint(f, p) then ClearCheckpoint(f, p.thread) else f;
    if p.checkpoint && AdmitsFresh(f, p) then BindTag(cleared.(key := KeyAfter(f, secret)), t, p, creds) else cleared
  }

  /** The whole fresh admission is the worker's steps Admit, OpenKey, Mint, Bind taken without a crash between. */
  lemma {:induction false} AdmissionIsItsSteps(e: Engine, config: Config, creds: Creds, secret: nat)
    requires e.worker.Busy? && e.worker.pc.Announced? && !e.worker.resume
    ensures var w := e.worker;
            var p := ShapeOf(w.params, config);
            var done := Work(e, Admit(config, creds));
            var bound := if p.checkpoint then Work(Work(Work(done, OpenKey), Mint(secret)), Bind) else done;
            bound == e.(files := AdmitFiles(e.files, w.task, p, creds, secret),
                        worker := w.(pc := if AdmitsFresh(e.files, p) then Admitted(p, creds) else Raised))
  {
    var p := ShapeOf(e.worker.params, config);
    var done := Work(e, Admit(config, creds));
    if p.checkpoint {
      var minted := Work(Work(done, OpenKey), Mint(secret));
      assert minted.files == done.files.(key := KeyAfter(e.files, secret));
      assert minted.worker == done.worker;
    }
  }

  class GraphRunner {
    var key: KeyFile
    var tags: map<Thread, Tag>
    var checkpoints: map<Thread, seq<Write>>

    ghost function View(): Files
      reads this
    {
      Files(key, tags, checkpoints)
    }

    /** With `create`, write the tag; otherwise compare it. `secret` is what `secrets` would return. */
    method CredentialBinding(t: TaskId, p: Shape, creds: Creds, create: bool, secret: nat) returns (ok: bool)
      modifies this`key, this`tags
      ensures !create ==> View() == old(View()) && ok == Verifies(View(), t, p, creds)
      ensures create ==> ok == !old(key).Short?
      ensures create ==> View() == if ok then BindTag(old(View()).(key := KeyAfter(old(View()), secret)), t, p, creds) else old(View())
    {
      if create && key.Absent? {
        key := Short;
        key := Full(secret);
      }
      if !key.Full? {
        return false;
      }
      var tag := Tag(key.secret, t, p.thread, creds);
      if create {
        tags := tags[p.thread := tag];
        return true;
      }
      ok := p.thread in tags && tags[p.thread] == tag;
    }

    /** The read-only probe behind the resume button. */
    method CanResume(t: TaskId, p: Shape, creds: Creds) returns (ok: bool)
      modifies this`key, this`tags
      ensures View() == old(View())
      ensures ok == (HasCheckpoint(View(), p) && Verifies(View(), t, p, creds))
    {
      if !p.checkpoint || p.thread !in checkpoints {
        return false;
      }
      ok := CredentialBinding(t, p, creds, false, 0);
    }

    /** `run` up to constructing the graph: refuse, resume, or clear and bind. */
    method Prepare(t: TaskId, p: Shape, creds: Creds, resume: bool, secret: nat) returns (ok: bool)
      modifies this
      ensures resume ==> View() == old(View()) && ok == (HasCheckpoint(View(), p) && Verifies(View(), t, p, creds))
      ensures !resume ==> ok == AdmitsFresh(old(View()), p) && View() == AdmitFiles(old(View()), t, p, creds, secret)
    {
      if resume {
        ok := CanResume(t, p, creds);
        return;
      }
      if p.checkpoint && p.thread in checkpoints {
        checkpoints := checkpoints - {p.thread};
      }
      ok := true;
      if p.checkpoint {
        ok := CredentialBinding(t, p, creds, true, secret);
      }
    }

    /** The stream loop: `states` are the redacted report sections of each graph state in turn. */
    method Stream(states: seq<seq<Report>>) returns (emitted: seq<Report>)
      ensures emitted == Emitted(Flatten(states))
    {
      var previous: map<string, string> := map[];
      emitted := [];
      var i := 0;
      while i < |states|
        invariant 0 <= i <= |states|
        invariant emitted == Emitted(Flatten(states[..i]))
        invariant Remembers(previous, Flatten(states[..i]))
      {
        ghost var before := Flatten(states[..i]);
        var j := 0;
        assert before + states[i][..0] == before;
        while j < |states[i]|
          invariant 0 <= j <= |states[i]|
          invariant emitted == Emitted(before + states[i][..j])
          invariant Remembers(previous, before + states[i][..j])
        {
          var r := states[i][j];
          ghost var seen := before + states[i][..j];
          assert before + states[i][..j + 1] == seen + [r];
          RemembersNext(previous, seen, r);
          if !Blank(r.text) && !(r.section in previous && previous[r.section] == r.text) {
            previous := previous[r.section := r.text];
            emitted := emitted + [r];
          }
          j := j + 1;
        }
        assert states[i][..j] == states[i];
        assert states[..i + 1][..i] == states[..i];
        i := i + 1;
      }
      assert states[..i] == states;
    }
  }
}
