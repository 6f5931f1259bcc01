/** One worker's pass over a document, while other workers go on between its transactions. */
module EmbeddingWorker {
  import opened Wrappers
  import opened EmbeddingRows
  import opened EmbeddingGenerations

  /** A transaction may fail before it took effect, or after, when only its answer is lost. */
  datatype Fault = NoFault | NotApplied | AnswerLost

  datatype Environment = Environment(others: nat -> seq<Event>, fault: nat -> Fault)

  /** What loading and embedding the document gave. */
  datatype Embedded = MissingDocument | BlankDocument | ProviderFailed | Chunks(chunks: seq<Chunk>)

  predicate Uses(e: Event, w: Worker, g: Generation) {
    match e
    case Begin(v, h, _) => v == w || h == g
    case PrepareEmpty(h) => h == g
    case CompleteEmpty(_) => false
    case MarkStale => false
    case Cancel(_) => false
    case _ => e.w == w
  }

  ghost predicate Alone(env: Environment, w: Worker, g: Generation) {
    forall n: nat, i | 0 <= i < |env.others(n)| :: !Uses(env.others(n)[i], w, g)
  }

  /** Others neither begin nor prepare another generation, nor cancel this one. */
  predicate Peaceful(events: seq<Event>, g: Generation) {
    forall i | 0 <= i < |events| :: !events[i].Begin? && !events[i].PrepareEmpty? && events[i] != Cancel(g)
  }

  /** In these calls nothing fails, and others leave the pending generation to the worker. */
  ghost predicate Calm(env: Environment, g: Generation, from: nat, to: nat) {
    forall n: nat | from <= n < to :: env.fault(n) == NoFault && Peaceful(env.others(n), g)
  }

  /** The worker's generation is the pending one, and nobody has cancelled it. */
  predicate Holding(d: Document, w: Worker, g: Generation) {
    && d.pending == Some(g) && g !in d.cancelled
    && w in d.tasks && d.tasks[w].generation == Some(g)
  }

  function TaskOf(d: Document, w: Worker): Option<Task> {
    if w in d.tasks then Some(d.tasks[w]) else None
  }

  lemma OtherStep(embed: Provider, d: Document, e: Event, w: Worker, g: Generation)
    requires !Uses(e, w, g)
    ensures TaskOf(Next(embed, d, e), w) == TaskOf(d, w)
    ensures g in Next(embed, d, e).sources <==> g in d.sources
  {
  }

  lemma {:induction false} OthersKeepTask(embed: Provider, d: Document, events: seq<Event>, w: Worker, g: Generation)
    requires forall i | 0 <= i < |events| :: !Uses(events[i], w, g)
    ensures TaskOf(Run(embed, d, events), w) == TaskOf(d, w)
    ensures g in Run(embed, d, events).sources <==> g in d.sources
  {
    hide Next;
    if events != [] {
      OthersKeepTask(embed, d, events[..|events| - 1], w, g);
      OtherStep(embed, Run(embed, d, events[..|events| - 1]), events[|events| - 1], w, g);
    }
  }

  lemma PeacefulStep(embed: Provider, d: Document, e: Event, w: Worker, g: Generation)
    requires Inv(embed, d) && !Uses(e, w, g) && Peaceful([e], g)
    ensures g !in d.cancelled ==> g !in Next(embed, d, e).cancelled
    ensures Holding(d, w, g) ==> Holding(Next(embed, d, e), w, g)
  {
    hide FullRows, SourceOk, RowsOk, ChunksOk, OneProfile, IncrementalRows;
    assert [e][0] == e;
    if Holding(d, w, g) {
      assert TaskOk(embed, d, d.tasks[w]);
      if e.TryActivate? && e.w in d.tasks {
        assert TaskOk(embed, d, d.tasks[e.w]);
      }
    }
  }

  lemma {:induction false} PeacefulRun(embed: Provider, d: Document, events: seq<Event>, w: Worker, g: Generation)
    requires Inv(embed, d) && Peaceful(events, g)
    requires forall i | 0 <= i < |events| :: !Uses(events[i], w, g)
    ensures g !in d.cancelled ==> g !in Run(embed, d, events).cancelled
    ensures Holding(d, w, g) ==> Holding(Run(embed, d, events), w, g)
  {
    hide Next, Inv, Holding;
    if events != [] {
      var most, last := events[..|events| - 1], events[|events| - 1];
      PeacefulRun(embed, d, most, w, g);
      RunKeeps(embed, d, most);
      PeacefulStep(embed, Run(embed, d, most), last, w, g);
    }
  }

  lemma {:induction false} RunConcat(embed: Provider, d: Document, events: seq<Event>, more: seq<Event>)
    ensures Run(embed, d, events + more) == Run(embed, Run(embed, d, events), more)
  {
    if more == [] {
      assert events + more == events;
    } else {
      RunConcat(embed, d, events, more[..|more| - 1]);
      assert (events + more)[..|events + more| - 1] == events + more[..|more| - 1];
    }
  }

  class EmbeddingStore {
    const embed: Provider
    const env: Environment
    var doc: Document
    var calls: nat
    ghost var trace: seq<Event>

    ghost predicate Valid()
      reads this
    {
      doc == Run(embed, NEW, trace)
    }

    constructor (embed: Provider, env: Environment)
      ensures Valid() && this.embed == embed && this.env == env && doc == NEW
    {
      this.embed, this.env, doc, calls, trace := embed, env, NEW, 0, [];
    }

    /** Others act while a call is under way. */
    method Wait(w: Worker, g: Generation)
      requires Valid() && Alone(env, w, g)
      modifies this
      ensures Valid() && old(trace) <= trace
      ensures TaskOf(doc, w) == TaskOf(old(doc), w) && (g in doc.sources <==> g in old(doc).sources)
      ensures calls == old(calls) + 1
      ensures Peaceful(env.others(old(calls)), g) ==>
                && (g !in old(doc).cancelled ==> g !in doc.cancelled)
                && (Holding(old(doc), w, g) ==> Holding(doc, w, g))
    {
      hide Run, Holding, Inv;
      if Peaceful(env.others(calls), g) {
        Reachable(embed, trace);
        PeacefulRun(embed, doc, env.others(calls), w, g);
      }
      RunConcat(embed, NEW, trace, env.others(calls));
      OthersKeepTask(embed, doc, env.others(calls), w, g);
      doc := Run(embed, doc, env.others(calls));
      trace := trace + env.others(calls);
      calls := calls + 1;
    }

    method Perform(e: Event)
      requires Valid()
      modifies this`doc, this`trace
      ensures Valid() && trace == old(trace) + [e] && doc == Next(embed, old(doc), e)
    {
      assert (trace + [e])[..|trace|] == trace;
      doc := Next(embed, doc, e);
      trace := trace + [e];
    }

    /** A transaction: it may fail with or without effect. */
    method Transact(e: Event, w: Worker, g: Generation) returns (ok: bool, ghost was: Document)
      requires Valid() && Alone(env, w, g)
      modifies this
      ensures Valid() && old(trace) <= trace
      ensures TaskOf(was, w) == TaskOf(old(doc), w) && (g in was.sources <==> g in old(doc).sources)
      ensures ok ==> doc == Next(embed, was, e)
      ensures Inv(embed, was)
      ensures calls == old(calls) + 1 && (ok <==> env.fault(old(calls)) == NoFault)
      ensures doc == if env.fault(old(calls)) == NotApplied then was else Next(embed, was, e)
      ensures Peaceful(env.others(old(calls)), g) ==>
                && (g !in old(doc).cancelled ==> g !in was.cancelled)
                && (Holding(old(doc), w, g) ==> Holding(was, w, g))
    {
      hide Next, Holding, Run, Inv;
      var fault := env.fault(calls);
      Wait(w, g);
      was := doc;
      Reachable(embed, trace);
      if fault != NotApplied {
        Perform(e);
      }
      ok := fault == NoFault;
    }

    /** The activating transaction; a rejected activation counts as a failure. */
    method Activating(w: Worker, g: Generation, chunks: seq<Chunk>) returns (ok: bool)
      requires Valid() && Alone(env, w, g) && TaskOf(doc, w).Some? && TaskOf(doc, w).value.inserted
      requires TaskOf(doc, w).value.generation == Some(g) && TaskOf(doc, w).value.chunks == chunks
      modifies this
      ensures Valid() && old(trace) <= trace
      ensures ok ==> doc.active == Some(g) && RowsOf(doc, g) == FullRows(chunks)
      ensures calls == old(calls) + 1 && (ok ==> env.fault(old(calls)) == NoFault)
      ensures TaskOf(doc, w) == TaskOf(old(doc), w)
      ensures Holding(old(doc), w, g) && Calm(env, g, old(calls), old(calls) + 1) ==> ok
    {
      hide Run, Inv, FullRows, Next, Activate, Holding;
      var fault := env.fault(calls);
      Wait(w, g);
      Reachable(embed, trace);
      TaskChunks(embed, doc, w);
      var outcome := Activate(doc, g, |chunks|, ProfileOf(chunks));
      ActivationExactly(embed, trace, w);
      HoldingMeans(doc, w, g);
      ActivationEffect(embed, doc, w, g);
      if fault != NotApplied {
        Perform(TryActivate(w));
      }
      ok := fault == NoFault && !outcome.Rejected?;
      if ok {
        ActiveIsSearchable(embed, trace);
      }
    }

    /**
     * Process a document. When it is reported as done and there was something to embed, the new
     * generation has been active, with the rows that a full embedding of the chunks gives.
     */
    method ProcessDocument(w: Worker, g: Generation, embedded: Embedded) returns (done: bool, ghost at: nat)
      requires Valid() && Alone(env, w, g) && w !in doc.tasks && g !in doc.sources
      requires embedded.Chunks? ==> ChunksOk(embed, embedded.chunks)
      modifies this
      ensures Valid() && w !in doc.tasks && old(trace) <= trace
      ensures embedded.MissingDocument? || embedded.BlankDocument? ==> done
      ensures embedded.ProviderFailed? ==> !done
      ensures embedded.Chunks? && (embedded.chunks == [] || !OneProfile(embedded.chunks)) ==> !done
      ensures done && embedded.Chunks? ==>
                && at <= |trace|
                && var d := Run(embed, NEW, trace[..at]);
                   d.active == Some(g) && RowsOf(d, g) == FullRows(embedded.chunks)
      ensures embedded.Chunks? && embedded.chunks != [] && OneProfile(embedded.chunks)
              && g !in old(doc).cancelled && Calm(env, g, old(calls), old(calls) + 5) ==>
                done && doc.active == Some(g) && RowsOf(doc, g) == FullRows(embedded.chunks)
    {
      hide Run, Inv, FullRows, IncrementalRows, Holding;
      at := 0;
      Wait(w, g);
      Perform(Read(w));
      if embedded.MissingDocument? || embedded.BlankDocument? {
        Perform(Crash(w));
        return true, at;
      }
      done := false;
      if embedded.ProviderFailed? || embedded.chunks == [] || !OneProfile(embedded.chunks) {
        var _, _ := Transact(FailEarly(w), w, g);
      } else {
        done, at := Build(w, g, embedded.chunks);
      }
      ghost var built := trace;
      Perform(Crash(w));
      assert at <= |built| ==> trace[..at] == built[..at];
    }

    /** Insert the rows of a generation that has been begun, and activate it. */
    method Fill(w: Worker, g: Generation, chunks: seq<Chunk>) returns (done: bool)
      requires Valid() && Alone(env, w, g) && TaskOf(doc, w).Some?
      requires Begun(TaskOf(doc, w).value, g, chunks)
      modifies this
      ensures Valid() && old(trace) <= trace && old(calls) < calls
      ensures TaskOf(doc, w).Some? && TaskOf(doc, w).value.generation == Some(g)
      ensures done ==> doc.active == Some(g) && RowsOf(doc, g) == FullRows(chunks)
      ensures done ==> forall n: nat | old(calls) <= n < old(calls) + 3 :: env.fault(n) == NoFault
      ensures Holding(old(doc), w, g) && Calm(env, g, old(calls), old(calls) + 3) ==> done
    {
      hide Run, Inv, FullRows, Next, Holding;
      done := false;
      var ok, was := Transact(Fetch(w), w, g);
      FetchEffect(embed, was, w);
      if ok {
        ok, was := Transact(Insert(w), w, g);
        InsertEffect(embed, was, w);
        if ok {
          Reachable(embed, trace);
          TaskChunks(embed, doc, w);
          done := Activating(w, g, chunks);
        }
      }
    }

    /** Begin a generation, insert its rows, activate it; fail it when a step fails. */
    method Build(w: Worker, g: Generation, chunks: seq<Chunk>) returns (done: bool, ghost at: nat)
      requires Valid() && Alone(env, w, g) && g !in doc.sources
      requires w in doc.tasks && doc.tasks[w].generation.None? && !doc.tasks[w].inserted
      requires doc.tasks[w].existing.None? && SourceOk(embed, chunks)
      modifies this
      ensures Valid() && old(trace) <= trace && at <= |trace| && old(calls) < calls
      ensures done ==>
                var d := Run(embed, NEW, trace[..at]);
                d.active == Some(g) && RowsOf(d, g) == FullRows(chunks)
      ensures done ==> doc.active == Some(g) && RowsOf(doc, g) == FullRows(chunks)
      ensures done ==> forall n: nat | old(calls) <= n < old(calls) + 4 :: env.fault(n) == NoFault
      ensures g !in old(doc).cancelled && Calm(env, g, old(calls), old(calls) + 4) ==> done
      ensures !done && env.fault(calls - 1) != NotApplied ==>
                && w !in doc.tasks
                && if env.fault(old(calls)) == NoFault then doc.pending != Some(g) else doc.status == Failed
    {
      hide Run, Inv, FullRows, Next, SourceOk, Holding;
      done, at := false, 0;
      var ok, was := Transact(Begin(w, g, chunks), w, g);
      if !ok {
        BeginKeepsTask(embed, was, w, g, chunks);
        var _, last := Transact(FailEarly(w), w, g);
        FailEarlyEffect(embed, last, w);
        return;
      }
      BeginEffect(embed, was, w, g, chunks);
      done := Fill(w, g, chunks);
      if done {
        assert trace[..|trace|] == trace;
        return true, |trace|;
      }
      var _, last := Transact(GiveUp(w), w, g);
      GiveUpEffect(embed, last, w, g);
    }
  }

  /** A generation has been begun for the chunks, and nothing else has happened with it. */
  predicate Begun(t: Task, g: Generation, chunks: seq<Chunk>) {
    t.generation == Some(g) && t.chunks == chunks && t.existing.None? && !t.inserted
  }

  lemma HoldingMeans(d: Document, w: Worker, g: Generation)
    ensures Holding(d, w, g) ==> d.pending == Some(g) && g !in d.cancelled
  {
  }

  lemma ActivationEffect(embed: Provider, d: Document, w: Worker, g: Generation)
    requires At(d, w) && d.tasks[w].inserted && d.tasks[w].generation == Some(g) && d.tasks[w].chunks != []
    ensures !Activate(d, g, |d.tasks[w].chunks|, ProfileOf(d.tasks[w].chunks)).Rejected? ==>
              Next(embed, d, TryActivate(w)).active == Some(g)
    ensures Next(embed, d, TryActivate(w)).sources == d.sources && Next(embed, d, TryActivate(w)).tasks == d.tasks
  {
  }

  lemma BeginKeepsTask(embed: Provider, d: Document, w: Worker, g: Generation, chunks: seq<Chunk>)
    requires w in d.tasks
    ensures w in Next(embed, d, Begin(w, g, chunks)).tasks
  {
    hide OneProfile, ChunksOk;
  }

  lemma FailEarlyEffect(embed: Provider, d: Document, w: Worker)
    requires TaskOf(d, w).Some?
    ensures var e := Next(embed, d, FailEarly(w)); w !in e.tasks && e.status == Failed
  {
  }

  lemma GiveUpEffect(embed: Provider, d: Document, w: Worker, g: Generation)
    requires Inv(embed, d) && TaskOf(d, w).Some? && TaskOf(d, w).value.generation == Some(g)
    ensures var e := Next(embed, d, GiveUp(w)); w !in e.tasks && e.pending != Some(g)
  {
  }

  lemma BeginEffect(embed: Provider, d: Document, w: Worker, g: Generation, chunks: seq<Chunk>)
    requires TaskOf(d, w).Some? && TaskOf(d, w).value.generation.None? && g !in d.sources && SourceOk(embed, chunks)
    ensures var e := Next(embed, d, Begin(w, g, chunks));
            TaskOf(e, w) == Some(TaskOf(d, w).value.(generation := Some(g), chunks := chunks)) && g in e.sources
            && (g !in d.cancelled ==> Holding(e, w, g))
  {
    hide OneProfile, ChunksOk;
  }

  lemma FetchEffect(embed: Provider, d: Document, w: Worker)
    requires TaskOf(d, w).Some? && TaskOf(d, w).value.generation.Some? && TaskOf(d, w).value.existing.None?
    ensures var e := Next(embed, d, Fetch(w));
            && TaskOf(e, w).Some? && TaskOf(e, w).value.existing.Some?
            && TaskOf(e, w).value == TaskOf(d, w).value.(existing := TaskOf(e, w).value.existing)
            && e.sources == d.sources && (forall g :: Holding(d, w, g) ==> Holding(e, w, g))
  {
  }

  lemma InsertEffect(embed: Provider, d: Document, w: Worker)
    requires TaskOf(d, w).Some? && TaskOf(d, w).value.generation.Some? && TaskOf(d, w).value.existing.Some?
    requires !TaskOf(d, w).value.inserted
    ensures var e := Next(embed, d, Insert(w));
            TaskOf(e, w) == Some(TaskOf(d, w).value.(inserted := true)) && e.sources == d.sources
            && forall g :: Holding(d, w, g) ==> Holding(e, w, g)
  {
    hide IncrementalRows;
  }

  lemma TaskChunks(embed: Provider, d: Document, w: Worker)
    requires Inv(embed, d) && At(d, w)
    ensures var t := d.tasks[w];
            t.generation.value in d.sources && d.sources[t.generation.value] == t.chunks && t.chunks != []
  {
    assert TaskOk(embed, d, d.tasks[w]) && SourceOk(embed, d.tasks[w].chunks);
  }
}
