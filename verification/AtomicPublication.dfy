/** Publication through exclusively created temporary files, by any number of overlapping writers in any
    number of processes, some of which die halfway. */
module AtomicPublication {
  import opened Primitives

  /** A published path, or a process's temporary name: the common one, or one numbered from its counter. */
  datatype Name = Final(path: nat) | Temp(pid: nat, number: Option<nat>)

  datatype Phase = Trying | Writing(written: nat) | Cleaning

  datatype Writer = Writer(pid: nat, path: nat, frame: Bytes, tmp: Name, phase: Phase) {
    predicate Owns() { !phase.Trying? }
  }

  /** `offered` collects what any writer ever set out to publish, and where. */
  datatype State = State(files: map<Name, Bytes>, next: map<nat, nat>, writers: map<nat, Writer>, offered: set<(nat, Bytes)>) {
    function Next(pid: nat): nat { if pid in next then next[pid] else 0 }
  }

  datatype Action =
    | Create                 // create_new on the current name; on a clash the counter names the next one
    | CreateFails            // any other error
    | WriteMore(upto: nat)
    | WriteFails
    | Rename
    | RenameFails
    | Cleanup(removed: bool)
    | Die

  datatype Step = Begin(w: nat, pid: nat, path: nat, frame: Bytes) | Act(w: nat, action: Action) | Evict(path: nat) | Restart(pid: nat)

  predicate ActionEnabled(wr: Writer, a: Action) {
    match a
    case Create => wr.phase.Trying?
    case CreateFails => wr.phase.Trying?
    case WriteMore(upto) => wr.phase.Writing? && wr.phase.written < upto <= |wr.frame|
    case WriteFails => wr.phase.Writing?
    case Rename => wr.phase.Writing? && wr.phase.written == |wr.frame|
    case RenameFails => wr.phase.Writing? && wr.phase.written == |wr.frame|
    case Cleanup(_) => wr.phase.Cleaning?
    case Die => true
  }

  predicate Enabled(s: State, step: Step) {
    match step
    case Begin(w, _, _, _) => w !in s.writers
    case Act(w, action) => w in s.writers && ActionEnabled(s.writers[w], action)
    case Evict(_) => true
    case Restart(pid) => forall w :: w in s.writers ==> s.writers[w].pid != pid
  }

  function After(s: State, step: Step): State
    requires Enabled(s, step)
  {
    match step
    case Begin(w, pid, path, frame) =>
      s.(writers := s.writers[w := Writer(pid, path, frame, Temp(pid, None), Trying)], offered := s.offered + {(path, frame)})
    case Evict(path) => s.(files := s.files - {Final(path)})
    case Restart(pid) => s.(next := s.next[pid := 0])
    case Act(w, action) =>
      var wr := s.writers[w];
      match action
      case Create =>
        if wr.tmp in s.files then
          var n := s.Next(wr.pid);
          s.(next := s.next[wr.pid := n + 1], writers := s.writers[w := wr.(tmp := Temp(wr.pid, Some(n)))])
        else
          s.(files := s.files[wr.tmp := []], writers := s.writers[w := wr.(phase := Writing(0))])
      case CreateFails => s.(writers := s.writers - {w})
      case WriteMore(upto) =>
        s.(files := s.files[wr.tmp := wr.frame[..upto]], writers := s.writers[w := wr.(phase := Writing(upto))])
      case WriteFails => s.(writers := s.writers[w := wr.(phase := Cleaning)])
      case Rename =>
        var content := if wr.tmp in s.files then s.files[wr.tmp] else [];
        s.(files := (s.files - {wr.tmp})[Final(wr.path) := content], writers := s.writers - {w})
      case RenameFails => s.(writers := s.writers[w := wr.(phase := Cleaning)])
      case Cleanup(removed) => s.(files := if removed then s.files - {wr.tmp} else s.files, writers := s.writers - {w})
      case Die => s.(writers := s.writers - {w})
  }

  // ----- the invariant -----

  ghost predicate WriterInv(s: State, wr: Writer) {
    && wr.tmp.Temp? && wr.tmp.pid == wr.pid && (wr.tmp.number.Some? ==> wr.tmp.number.value < s.Next(wr.pid))
    && (wr.path, wr.frame) in s.offered
    && (wr.Owns() ==> wr.tmp in s.files)
    && (wr.phase.Writing? ==> wr.phase.written <= |wr.frame| && s.files[wr.tmp] == wr.frame[..wr.phase.written])
  }

  /** Each temporary file has one live owner, and no two live writers ever share a numbered name. */
  ghost predicate Apart(a: Writer, b: Writer) {
    a.tmp == b.tmp ==> a.tmp.Temp? && a.tmp.number.None? && !(a.Owns() && b.Owns())
  }

  /** A published path holds what it held at the start, or one writer's complete frame for that very path. */
  ghost predicate Whole(start: map<Name, Bytes>, s: State) {
    forall p: nat :: Final(p) in s.files ==>
      (p, s.files[Final(p)]) in s.offered || (Final(p) in start && start[Final(p)] == s.files[Final(p)])
  }

  ghost predicate Inv(start: map<Name, Bytes>, s: State) {
    && (forall w :: w in s.writers ==> WriterInv(s, s.writers[w]))
    && (forall a, b :: a in s.writers && b in s.writers && a != b ==> Apart(s.writers[a], s.writers[b]))
    && Whole(start, s)
  }

  lemma WritersKept(start: map<Name, Bytes>, s: State, step: Step)
    requires Inv(start, s) && Enabled(s, step)
    ensures var t := After(s, step); forall v :: v in t.writers ==> WriterInv(t, t.writers[v])
  {
    hide Whole, WriterInv, Apart;
    var t := After(s, step);
    forall v | v in t.writers ensures WriterInv(t, t.writers[v]) {
      if step.Act? && v == step.w {
        WriterMoves(s, step);
      } else if v in s.writers {
        WriterUndisturbed(s, step, v);
      } else {
        WriterBegins(s, step);
      }
    }
  }

  lemma WriterMoves(s: State, step: Step)
    requires Enabled(s, step) && step.Act? && WriterInv(s, s.writers[step.w]) && step.w in After(s, step).writers
    ensures WriterInv(After(s, step), After(s, step).writers[step.w])
  {
  }

  lemma WriterBegins(s: State, step: Step)
    requires Enabled(s, step) && step.Begin?
    ensures WriterInv(After(s, step), After(s, step).writers[step.w])
  {
  }

  lemma WriterUndisturbed(s: State, step: Step, v: nat)
    requires Enabled(s, step) && v in s.writers && WriterInv(s, s.writers[v])
    requires step.Act? ==> v != step.w && WriterInv(s, s.writers[step.w]) && Apart(s.writers[v], s.writers[step.w])
    ensures v in After(s, step).writers && After(s, step).writers[v] == s.writers[v] && WriterInv(After(s, step), s.writers[v])
  {
  }

  lemma ApartKept(start: map<Name, Bytes>, s: State, step: Step)
    requires Inv(start, s) && Enabled(s, step)
    ensures var t := After(s, step); forall a, b :: a in t.writers && b in t.writers && a != b ==> Apart(t.writers[a], t.writers[b])
  {
    hide Whole, Apart;
    var t := After(s, step);
    forall a, b | a in t.writers && b in t.writers && a != b ensures Apart(t.writers[a], t.writers[b]) {
      if step.Act? && a == step.w {
        ApartMoved(s, step, b);
      } else if step.Act? && b == step.w {
        ApartMoved(s, step, a);
        ApartSymmetric(t.writers[b], t.writers[a]);
      } else if step.Begin? && (a == step.w || b == step.w) {
        ApartFromNew(t.writers[a], t.writers[b]);
      }
    }
  }

  lemma ApartSymmetric(a: Writer, b: Writer)
    requires Apart(a, b)
    ensures Apart(b, a)
  {
  }

  lemma ApartFromNew(a: Writer, b: Writer)
    requires (a.phase.Trying? && a.tmp == Temp(a.pid, None)) || (b.phase.Trying? && b.tmp == Temp(b.pid, None))
    ensures Apart(a, b)
  {
  }

  lemma ApartMoved(s: State, step: Step, v: nat)
    requires Enabled(s, step) && step.Act? && v in s.writers && v != step.w && step.w in After(s, step).writers
    requires Apart(s.writers[step.w], s.writers[v]) && WriterInv(s, s.writers[step.w]) && WriterInv(s, s.writers[v])
    ensures Apart(After(s, step).writers[step.w], s.writers[v]) && After(s, step).writers[v] == s.writers[v]
  {
  }

  lemma WholeKept(start: map<Name, Bytes>, s: State, step: Step)
    requires Inv(start, s) && Enabled(s, step)
    ensures Whole(start, After(s, step))
  {
    hide Apart;
    if step.Act? {
      var wr := s.writers[step.w];
      assert WriterInv(s, wr);
      assert wr.frame[..|wr.frame|] == wr.frame;
    }
  }

  /** Whatever the start state holds, stale temporaries included, no step breaks the invariant. */
  lemma StepKeeps(start: map<Name, Bytes>, s: State, step: Step)
    requires Inv(start, s) && Enabled(s, step)
    ensures Inv(start, After(s, step))
  {
    hide WriterInv, Apart, Whole, After;
    WritersKept(start, s, step);
    ApartKept(start, s, step);
    WholeKept(start, s, step);
  }

  predicate CanRun(s: State, steps: seq<Step>)
    decreases |steps|
  {
    steps == [] || (Enabled(s, steps[0]) && CanRun(After(s, steps[0]), steps[1..]))
  }

  function Run(s: State, steps: seq<Step>): State
    requires CanRun(s, steps)
    decreases |steps|
  {
    if steps == [] then s else Run(After(s, steps[0]), steps[1..])
  }

  lemma {:induction false} RunKeeps(start: map<Name, Bytes>, s: State, steps: seq<Step>)
    requires Inv(start, s) && CanRun(s, steps)
    ensures Inv(start, Run(s, steps))
    decreases |steps|
  {
    hide Inv, Enabled;
    if steps != [] {
      StepKeeps(start, s, steps[0]);
      RunKeeps(start, After(s, steps[0]), steps[1..]);
    }
  }

  /** From any directory, stale temporaries included: a reader of a published path always sees the original
      file or one writer's complete frame, at every moment of every run. */
  lemma PublishedIsWhole(files: map<Name, Bytes>, steps: seq<Step>, p: nat)
    requires CanRun(State(files, map[], map[], {}), steps)
    ensures var s := Run(State(files, map[], map[], {}), steps);
      Final(p) in s.files ==>
        (p, s.files[Final(p)]) in s.offered || (Final(p) in files && files[Final(p)] == s.files[Final(p)])
  {
    hide Run, CanRun;
    RunKeeps(files, State(files, map[], map[], {}), steps);
  }

  /** No action of one writer, its cleanup and its death included, touches the temporary file another writer
      owns; and only a rename changes a published path, replacing it by the whole frame in one step. */
  lemma OwnFilesOnly(start: map<Name, Bytes>, s: State, w: nat, action: Action)
    requires Inv(start, s) && Enabled(s, Act(w, action))
    ensures var t := After(s, Act(w, action));
      && (forall v :: v in s.writers && v != w && s.writers[v].Owns() ==>
            v in t.writers && t.writers[v] == s.writers[v] && s.writers[v].tmp in t.files && t.files[s.writers[v].tmp] == s.files[s.writers[v].tmp])
      && (forall p: nat :: !(action.Rename? && p == s.writers[w].path) ==>
            (Final(p) in t.files <==> Final(p) in s.files) && (Final(p) in s.files ==> t.files[Final(p)] == s.files[Final(p)]))
      && (action.Rename? ==> Final(s.writers[w].path) in t.files && t.files[Final(s.writers[w].path)] == s.writers[w].frame)
  {
    assert WriterInv(s, s.writers[w]);
    forall v | v in s.writers && v != w && s.writers[v].Owns() ensures s.writers[v].tmp in s.files && s.writers[v].tmp.Temp? {
      assert WriterInv(s, s.writers[v]);
    }
  }

  /** A numbered name clashes only with a stale file: its retry never races a live writer. */
  lemma NumberedClashIsStale(start: map<Name, Bytes>, s: State, w: nat, v: nat)
    requires Inv(start, s) && w in s.writers && v in s.writers && v != w
    requires s.writers[w].phase.Trying? && s.writers[w].tmp.Temp? && s.writers[w].tmp.number.Some?
    ensures s.writers[v].tmp != s.writers[w].tmp
  {
    assert Apart(s.writers[v], s.writers[w]);
  }

  /** A finished or abandoned writer leaves nothing of its own behind unless its removal failed or it died. */
  lemma NothingLeftBehind(start: map<Name, Bytes>, s: State, w: nat, action: Action)
    requires Inv(start, s) && Enabled(s, Act(w, action)) && s.writers[w].Owns()
    requires action.Rename? || action == Cleanup(true)
    ensures s.writers[w].tmp !in After(s, Act(w, action)).files
  {
    assert WriterInv(s, s.writers[w]);
  }
}
