/** The collector's handler: fetch the feed, keep the relevant items, and
    for each of them in feed order write the record, send the notification
    and mark the record notified. The first error thrown ends the run with a
    500 response; what was written before it stays written. */
module Collector {
  import opened Common
  import opened Table
  import opened Matcher
  import opened Feed

  /** What the feed request and the XML parser hand over. */
  datatype Fetch =
    | FetchError                    // the request was rejected
    | Unparsable                    // not XML, or no rss.channel
    | Channel(items: seq<FeedItem>) // the channel's items; empty when it has no item element

  /** What one run meets outside the code: the date conversion, the index of
      the first table write that fails (item k writes twice, as write 2k and
      write 2k+1), and the items whose notification is not delivered. */
  datatype Env = Env(isoDate: string -> Option<string>, failAt: Option<nat>, undelivered: set<nat>)

  /** The handler's response: status code, the body's message and its error. */
  datatype RunResponse = RunResponse(statusCode: int, message: string, error: Option<Fault>)

  function Success(n: nat): RunResponse {
    RunResponse(200, "Processed " + Decimal(n) + " news items", None)
  }

  function Failure(f: Fault): RunResponse {
    RunResponse(500, "Error processing RSS feed", Some(f))
  }

  /** The table and journal part-way through a run, and the error that ended it. */
  datatype Progress = Progress(table: map<string, Item>, journal: seq<Effect>, fault: Option<Fault>)

  /** The table, journal and response a whole run leaves. */
  datatype Outcome = Outcome(table: map<string, Item>, journal: seq<Effect>, response: RunResponse)

  /** The update expression `set notified = :notified` with `:notified` true. */
  const NotifiedFlag: map<Attr, Json> := map[Notified := JBool(true)]

  predicate Distinct(ids: seq<string>) {
    forall i, j :: 0 <= i < j < |ids| ==> ids[i] != ids[j]
  }


  /** What the pass over one relevant item does, fixed before it starts by
      the item, its id, its position and the environment: either the record
      does not build, or it is written, announced and marked, each table
      write possibly failing. */
  datatype Pass =
    | Throws(fault: Fault)
    | Writes(id: string, item: Item, text: string, delivered: bool, putFails: bool, markFails: bool)

  /** The pass over the k-th relevant item (from 0) with its id. */
  function PassFor(news: FeedItem, id: string, k: nat, env: Env): Pass {
    match BuildReport(news, id, env.isoDate)
    case Err(f) => Throws(f)
    case Ok(r) =>
      Writes(id, ToItem(r), Message(r), k !in env.undelivered,
             env.failAt == Some(2 * k), env.failAt == Some(2 * k + 1))
  }

  /** The passes over the first n relevant items, in feed order. */
  function Passes(rel: seq<FeedItem>, ids: seq<string>, env: Env, n: nat): (ps: seq<Pass>)
    requires n <= |rel| <= |ids|
    ensures |ps| == n
  {
    if n == 0 then [] else Passes(rel, ids, env, n - 1) + [PassFor(rel[n - 1], ids[n - 1], n - 1, env)]
  }

  /** The k-th pass is the one over the k-th relevant item. */
  lemma {:induction false} PassesAt(rel: seq<FeedItem>, ids: seq<string>, env: Env, n: nat, k: nat)
    requires k < n <= |rel| <= |ids|
    ensures Passes(rel, ids, env, n)[k] == PassFor(rel[k], ids[k], k, env)
  {
    if k < n - 1 {
      PassesAt(rel, ids, env, n - 1, k);
    }
  }

  /** One run of the loop body, while nothing has thrown: save the record,
      send the notification, mark the record notified; the first failing
      write throws. */
  function Step(p: Progress, pass: Pass): Progress
    requires p.fault.None?
  {
    match pass
    case Throws(f) => p.(fault := Some(f))
    case Writes(id, item, text, delivered, putFails, markFails) =>
      if putFails then p.(fault := Some(StoreWriteFailed))
      else
        var table := p.table[id := item];
        var journal := p.journal + [PutItem(id), Notice(text, delivered)];
        if markFails then Progress(table, journal, Some(StoreWriteFailed))
        else Progress(table[id := Updated(table, id, NotifiedFlag)],
                      journal + [UpdateItem(id, NotifiedFlag.Keys)], None)
  }

  /** The state after the loop has run over the first n passes, or after
      the pass that threw. */
  function Ingest(p0: Progress, passes: seq<Pass>, n: nat): Progress
    requires p0.fault.None? && n <= |passes|
  {
    if n == 0 then p0
    else
      var p := Ingest(p0, passes, n - 1);
      if p.fault.Some? then p else Step(p, passes[n - 1])
  }

  /** The whole handler. */
  function Collect(table: map<string, Item>, journal: seq<Effect>, fetch: Fetch,
                   ids: seq<string>, env: Env): Outcome
    requires fetch.Channel? ==> |fetch.items| <= |ids|
  {
    match fetch
    case FetchError => Outcome(table, journal, Failure(FetchFailed))
    case Unparsable => Outcome(table, journal, Failure(MalformedFeed))
    case Channel(items) =>
      if items == [] then Outcome(table, journal, Failure(NoFeedItems))
      else
        var rel := Relevant(items);
        var p := Ingest(Progress(table, journal, None), Passes(rel, ids, env, |rel|), |rel|);
        Outcome(p.table, p.journal, if p.fault.None? then Success(|rel|) else Failure(p.fault.value))
  }

  /** The loop body on the store: build the record, save it, send the
      notification (whose failure is swallowed), mark the record notified.
      Returns the error the pass threw, if any. */
  method ProcessItem(s: Store, news: FeedItem, id: string, k: nat, env: Env) returns (fault: Option<Fault>)
    requires id != ""
    modifies s
    ensures Progress(s.table, s.journal, fault) ==
            Step(Progress(old(s.table), old(s.journal), None), PassFor(news, id, k, env))
  {
    var built := BuildReport(news, id, env.isoDate);
    if built.Err? {
      return Some(built.fault);
    }
    var report := built.value;
    var ok := s.Put(id, ToItem(report), env.failAt == Some(2 * k));
    if !ok {
      return Some(StoreWriteFailed);
    }
    s.Post(Message(report), k !in env.undelivered);
    var err, _ := s.Update(id, map[Notified := Some(JBool(true))], env.failAt == Some(2 * k + 1));
    assert Values(map[Notified := Some(JBool(true))]) == NotifiedFlag;
    assert old(s.journal) + [PutItem(id)] + [Notice(Message(report), k !in env.undelivered)]
           == old(s.journal) + [PutItem(id), Notice(Message(report), k !in env.undelivered)];
    return err;
  }

  /** `exports.handler`: the run, on the store, with the loop of the source. */
  method Handler(s: Store, fetch: Fetch, ids: seq<string>, env: Env) returns (resp: RunResponse)
    requires fetch.Channel? ==> |fetch.items| <= |ids|
    requires forall i :: 0 <= i < |ids| ==> ids[i] != ""
    modifies s
    ensures Outcome(s.table, s.journal, resp) == Collect(old(s.table), old(s.journal), fetch, ids, env)
  {
    if fetch.FetchError? {
      return Failure(FetchFailed);
    } else if fetch.Unparsable? {
      return Failure(MalformedFeed);
    }
    var items := fetch.items;
    if items == [] {
      return Failure(NoFeedItems);
    }
    var relevant := Relevant(items);
    ghost var p0 := Progress(s.table, s.journal, None);
    ghost var passes := Passes(relevant, ids, env, |relevant|);
    var i := 0;
    while i < |relevant|
      invariant 0 <= i <= |relevant|
      invariant Ingest(p0, passes, i) == Progress(s.table, s.journal, None)
    {
      PassesAt(relevant, ids, env, |relevant|, i);
      var fault := ProcessItem(s, relevant[i], ids[i], i, env);
      assert Ingest(p0, passes, i + 1) == Progress(s.table, s.journal, fault);
      if fault.Some? {
        FaultSticks(p0, passes, i + 1, |relevant|);
        return Failure(fault.value);
      }
      i := i + 1;
    }
    return Success(|relevant|);
  }

  /** Once a pass has thrown, later passes never run. */
  lemma {:induction false} FaultSticks(p0: Progress, passes: seq<Pass>, m: nat, n: nat)
    requires p0.fault.None? && m <= n <= |passes|
    requires Ingest(p0, passes, m).fault.Some?
    ensures Ingest(p0, passes, n) == Ingest(p0, passes, m)
    decreases n
  {
    if n > m {
      FaultSticks(p0, passes, m, n - 1);
    }
  }

  /** A pass that goes through all three writes-and-sends. */
  predicate Done(pass: Pass) {
    pass.Writes? && !pass.putFails && !pass.markFails
  }

  /** The effects of a pass that is done, in order: the record is written,
      then the notification attempted, then the record marked notified. */
  function Trace(pass: Pass): seq<Effect>
    requires pass.Writes?
  {
    [PutItem(pass.id), Notice(pass.text, pass.delivered), UpdateItem(pass.id, {Notified})]
  }

  /** The effects of the first n passes, all done, in feed order. */
  function Traces(passes: seq<Pass>, n: nat): (t: seq<Effect>)
    requires n <= |passes|
    requires forall j :: 0 <= j < n ==> Done(passes[j])
    ensures |t| == 3 * n
  {
    if n == 0 then []
    else
      assert Done(passes[n - 1]);
      Traces(passes, n - 1) + Trace(passes[n - 1])
  }

  /** The marked records the first n passes, all done, leave, each under its id. */
  function Written(passes: seq<Pass>, n: nat): map<string, Item>
    requires n <= |passes|
    requires forall j :: 0 <= j < n ==> Done(passes[j])
  {
    if n == 0 then map[]
    else
      assert Done(passes[n - 1]);
      Written(passes, n - 1)[passes[n - 1].id := passes[n - 1].item + NotifiedFlag]
  }

  /** A pass that is done adds its marked record under its id and its trace
      to the journal. */
  lemma StepDone(p: Progress, pass: Pass)
    requires p.fault.None? && Done(pass)
    ensures Step(p, pass) ==
            Progress(p.table[pass.id := pass.item + NotifiedFlag], p.journal + Trace(pass), None)
  {
    assert NotifiedFlag.Keys == {Notified};
  }

  /** A pass that is not done throws. Its record is left written and not
      marked, and its notification attempted, exactly when its mark write is
      the one that fails; otherwise the pass changes nothing. */
  lemma StepThrows(p: Progress, pass: Pass)
    requires p.fault.None? && !Done(pass)
    ensures var half := pass.Writes? && !pass.putFails;
            Step(p, pass) ==
              Progress(if half then p.table[pass.id := pass.item] else p.table,
                       p.journal + (if half then [PutItem(pass.id), Notice(pass.text, pass.delivered)] else []),
                       Some(if pass.Throws? then pass.fault else StoreWriteFailed))
  {
    if !(pass.Writes? && !pass.putFails) {
      assert p.journal + [] == p.journal;
    }
  }

  /** Overwriting one key after overlaying two maps is overlaying the
      overwritten second map. */
  lemma OverlayUpdate<K, V>(a: map<K, V>, b: map<K, V>, k: K, v: V)
    ensures (a + b)[k := v] == a + b[k := v]
  {
  }

  lemma AppendAssoc<E>(a: seq<E>, b: seq<E>, c: seq<E>)
    ensures (a + b) + c == a + (b + c)
  {
  }

  /** While every pass is done, nothing throws, the journal gains the
      passes' traces in order, and the table is the old one overlaid with
      their marked records: no other record changes. */
  lemma {:induction false} IngestDone(p0: Progress, passes: seq<Pass>, n: nat)
    requires p0.fault.None? && n <= |passes|
    requires forall j :: 0 <= j < n ==> Done(passes[j])
    ensures Ingest(p0, passes, n).fault.None?
    ensures Ingest(p0, passes, n).journal == p0.journal + Traces(passes, n)
    ensures Ingest(p0, passes, n).table == p0.table + Written(passes, n)
  {
    if n > 0 {
      IngestDone(p0, passes, n - 1);
      var p := Ingest(p0, passes, n - 1);
      StepDone(p, passes[n - 1]);
      AppendAssoc(p0.journal, Traces(passes, n - 1), Trace(passes[n - 1]));
      OverlayUpdate(p0.table, Written(passes, n - 1), passes[n - 1].id, passes[n - 1].item + NotifiedFlag);
    }
  }

  /** The first pass that is not done ends the run with what it left. */
  lemma IngestAborts(p0: Progress, passes: seq<Pass>, k: nat)
    requires p0.fault.None? && k < |passes|
    requires forall j :: 0 <= j < k ==> Done(passes[j])
    requires !Done(passes[k])
    ensures Ingest(p0, passes, k).fault.None?
    ensures Ingest(p0, passes, |passes|) == Step(Ingest(p0, passes, k), passes[k])
  {
    IngestDone(p0, passes, k);
    StepThrows(Ingest(p0, passes, k), passes[k]);
    FaultSticks(p0, passes, k + 1, |passes|);
  }

  /** The table a run leaves when the k-th pass is the first not done: the
      marked records of the passes before it, and the k-th pass's record,
      not marked, when only its mark write failed. */
  lemma AbortTable(p0: Progress, passes: seq<Pass>, k: nat)
    requires p0.fault.None? && k < |passes|
    requires forall j :: 0 <= j < k ==> Done(passes[j])
    requires !Done(passes[k])
    ensures var t := p0.table + Written(passes, k);
            Ingest(p0, passes, |passes|).table ==
              if passes[k].Writes? && !passes[k].putFails then t[passes[k].id := passes[k].item] else t
  {
    IngestAborts(p0, passes, k);
    IngestDone(p0, passes, k);
    StepThrows(Ingest(p0, passes, k), passes[k]);
  }

  /** In a run that aborts at the k-th pass, an earlier pass whose id no
      later pass reuses keeps its marked record. */
  lemma AbortKeeps(p0: Progress, passes: seq<Pass>, k: nat, j: nat)
    requires p0.fault.None? && j < k < |passes|
    requires forall i :: 0 <= i < k ==> Done(passes[i])
    requires !Done(passes[k]) && Done(passes[j])
    requires forall i :: j < i < k ==> Done(passes[i]) && passes[i].id != passes[j].id
    requires passes[k].Writes? ==> passes[k].id != passes[j].id
    ensures passes[j].id in Ingest(p0, passes, |passes|).table
    ensures Ingest(p0, passes, |passes|).table[passes[j].id] == passes[j].item + NotifiedFlag
  {
    AbortTable(p0, passes, k);
    WrittenAt(passes, k, j);
  }

  /** The journal of n done passes holds each pass's trace at its place. */
  lemma {:induction false} TracesAt(passes: seq<Pass>, n: nat, j: nat)
    requires j < n <= |passes|
    requires forall i :: 0 <= i < n ==> Done(passes[i])
    ensures Traces(passes, n)[3 * j..3 * j + 3] == Trace(passes[j])
  {
    if j < n - 1 {
      TracesAt(passes, n - 1, j);
      assert Traces(passes, n)[..3 * (n - 1)] == Traces(passes, n - 1);
    }
  }

  /** After a journal, the trace of each done pass sits at its place. */
  lemma TracesAfter(journal: seq<Effect>, passes: seq<Pass>, n: nat, j: nat)
    requires j < n <= |passes|
    requires forall i :: 0 <= i < n ==> Done(passes[i])
    ensures (journal + Traces(passes, n))[|journal| + 3 * j..|journal| + 3 * j + 3] == Trace(passes[j])
  {
    var t := Traces(passes, n);
    TracesAt(passes, n, j);
    assert (journal + t)[|journal| + 3 * j..|journal| + 3 * j + 3] == t[3 * j..3 * j + 3];
  }

  /** The records written are keyed by exactly the ids of the passes. */
  lemma {:induction false} WrittenKeys(passes: seq<Pass>, n: nat, key: string)
    requires n <= |passes|
    requires forall j :: 0 <= j < n ==> Done(passes[j])
    ensures key in Written(passes, n) <==> exists j :: 0 <= j < n && passes[j].id == key
  {
    if n > 0 {
      WrittenKeys(passes, n - 1, key);
    }
  }

  /** A pass whose id no later pass reuses keeps its own marked record. */
  lemma {:induction false} WrittenAt(passes: seq<Pass>, n: nat, j: nat)
    requires j < n <= |passes|
    requires forall i :: 0 <= i < n ==> Done(passes[i])
    requires Done(passes[j])
    requires forall i :: j < i < n ==> Done(passes[i]) && passes[i].id != passes[j].id
    ensures passes[j].id in Written(passes, n)
    ensures Written(passes, n)[passes[j].id] == passes[j].item + NotifiedFlag
  {
    if j < n - 1 {
      WrittenAt(passes, n - 1, j);
    }
  }

  /** The k-th relevant item goes through all three writes-and-sends: its
      record builds and neither of its two table writes fails. */
  predicate Completes(rel: seq<FeedItem>, ids: seq<string>, env: Env, k: nat)
    requires k < |rel| <= |ids|
  {
    BuildReport(rel[k], ids[k], env.isoDate).Ok? && env.failAt != Some(2 * k)
    && env.failAt != Some(2 * k + 1)
  }

  /** The report built for the k-th relevant item. */
  function ReportFor(rel: seq<FeedItem>, ids: seq<string>, env: Env, k: nat): Report
    requires k < |rel| <= |ids| && Completes(rel, ids, env, k)
  {
    BuildReport(rel[k], ids[k], env.isoDate).value
  }

  /** A stored item marked notified is the report with `notified` true. */
  lemma MarkedItem(r: Report)
    ensures ToItem(r) + NotifiedFlag == ToItem(r.(notified := true))
  {
    assert ToItem(r) + NotifiedFlag == ToItem(r)[Notified := JBool(true)];
  }

  /** The pass over an item completes exactly when the item does, and then
      writes the item's record under the item's id and announces it. */
  lemma PassForItem(rel: seq<FeedItem>, ids: seq<string>, env: Env, n: nat, k: nat)
    requires k < n <= |rel| <= |ids|
    ensures Done(Passes(rel, ids, env, n)[k]) <==> Completes(rel, ids, env, k)
    ensures Completes(rel, ids, env, k) ==>
              Passes(rel, ids, env, n)[k] ==
              Writes(ids[k], ToItem(ReportFor(rel, ids, env, k)), Message(ReportFor(rel, ids, env, k)),
                     k !in env.undelivered, false, false)
  {
    PassesAt(rel, ids, env, n, k);
  }

  /** The record the pass over a completed item leaves, once marked, is the
      item's report with `notified` true. */
  lemma MarkedRecordOf(rel: seq<FeedItem>, ids: seq<string>, env: Env, n: nat, k: nat)
    requires k < n <= |rel| <= |ids|
    requires Completes(rel, ids, env, k)
    ensures Done(Passes(rel, ids, env, n)[k])
    ensures Passes(rel, ids, env, n)[k].item + NotifiedFlag == ToItem(ReportFor(rel, ids, env, k).(notified := true))
  {
    PassForItem(rel, ids, env, n, k);
    MarkedItem(ReportFor(rel, ids, env, k));
  }

  /** The pass over an item that does not complete is not done: it throws
      the date conversion's error when the record does not build, and
      otherwise writes under the item's id, failing where the item's writes
      fail. */
  lemma PassStops(rel: seq<FeedItem>, ids: seq<string>, env: Env, n: nat, k: nat)
    requires k < n <= |rel| <= |ids|
    requires !Completes(rel, ids, env, k)
    ensures var pass := Passes(rel, ids, env, n)[k];
            && !Done(pass)
            && (pass.Throws? <==> BuildReport(rel[k], ids[k], env.isoDate).Err?)
            && (pass.Throws? ==> pass.fault == InvalidDate)
            && (pass.Writes? ==> pass.id == ids[k] && (pass.putFails <==> env.failAt == Some(2 * k)))
  {
    PassesAt(rel, ids, env, n, k);
    BuildReportSpec(rel[k], ids[k], env.isoDate);
  }

  /** When the first n items complete, so do their passes, each under its item's id. */
  lemma PassesDone(rel: seq<FeedItem>, ids: seq<string>, env: Env, n: nat, m: nat)
    requires n <= m <= |rel| <= |ids|
    requires forall j :: 0 <= j < n ==> Completes(rel, ids, env, j)
    ensures forall j :: 0 <= j < n ==> Done(Passes(rel, ids, env, m)[j]) && Passes(rel, ids, env, m)[j].id == ids[j]
  {
    forall j | 0 <= j < n
      ensures Done(Passes(rel, ids, env, m)[j]) && Passes(rel, ids, env, m)[j].id == ids[j]
    {
      PassForItem(rel, ids, env, m, j);
    }
  }

  /** A run whose every relevant item completes answers 200 with the number
      of relevant items; undelivered notifications do not matter. */
  lemma CollectSucceeds(table: map<string, Item>, journal: seq<Effect>, items: seq<FeedItem>,
                        ids: seq<string>, env: Env)
    requires items != [] && |items| <= |ids|
    requires forall j :: 0 <= j < |Relevant(items)| ==> Completes(Relevant(items), ids, env, j)
    ensures Collect(table, journal, Channel(items), ids, env).response == Success(|Relevant(items)|)
  {
    var rel := Relevant(items);
    PassesDone(rel, ids, env, |rel|, |rel|);
    IngestDone(Progress(table, journal, None), Passes(rel, ids, env, |rel|), |rel|);
  }

  /** In a run whose every relevant item completes, each one's record,
      marked notified, is stored under its own id. */
  lemma CollectRecords(table: map<string, Item>, journal: seq<Effect>, items: seq<FeedItem>,
                       ids: seq<string>, env: Env)
    requires items != [] && |items| <= |ids| && Distinct(ids)
    requires forall j :: 0 <= j < |Relevant(items)| ==> Completes(Relevant(items), ids, env, j)
    ensures var o := Collect(table, journal, Channel(items), ids, env);
            var rel := Relevant(items);
            forall j :: 0 <= j < |rel| ==>
              ids[j] in o.table && o.table[ids[j]] == ToItem(ReportFor(rel, ids, env, j).(notified := true))
  {
    var rel := Relevant(items);
    var passes := Passes(rel, ids, env, |rel|);
    PassesDone(rel, ids, env, |rel|, |rel|);
    IngestDone(Progress(table, journal, None), passes, |rel|);
    forall j | 0 <= j < |rel|
      ensures ids[j] in Written(passes, |rel|)
      ensures Written(passes, |rel|)[ids[j]] == ToItem(ReportFor(rel, ids, env, j).(notified := true))
    {
      WrittenAt(passes, |rel|, j);
      MarkedRecordOf(rel, ids, env, |rel|, j);
    }
  }

  /** A run whose every relevant item completes touches no record other than
      theirs. */
  lemma CollectUntouched(table: map<string, Item>, journal: seq<Effect>, items: seq<FeedItem>,
                         ids: seq<string>, env: Env, key: string)
    requires items != [] && |items| <= |ids|
    requires forall j :: 0 <= j < |Relevant(items)| ==> Completes(Relevant(items), ids, env, j)
    requires forall j :: 0 <= j < |Relevant(items)| ==> ids[j] != key
    ensures var o := Collect(table, journal, Channel(items), ids, env);
            && (key in o.table <==> key in table)
            && (key in table ==> o.table[key] == table[key])
  {
    var rel := Relevant(items);
    var passes := Passes(rel, ids, env, |rel|);
    PassesDone(rel, ids, env, |rel|, |rel|);
    IngestDone(Progress(table, journal, None), passes, |rel|);
    WrittenKeys(passes, |rel|, key);
  }

  /** In a run whose every relevant item completes, the journal gains, item
      after item in feed order, the record's write, the notification of its
      message (delivered or not), and the update marking it notified. */
  lemma CollectNotifies(table: map<string, Item>, journal: seq<Effect>, items: seq<FeedItem>,
                        ids: seq<string>, env: Env)
    requires items != [] && |items| <= |ids|
    requires forall j :: 0 <= j < |Relevant(items)| ==> Completes(Relevant(items), ids, env, j)
    ensures var o := Collect(table, journal, Channel(items), ids, env);
            var rel := Relevant(items);
            && |o.journal| == |journal| + 3 * |rel|
            && o.journal[..|journal|] == journal
            && (forall j :: 0 <= j < |rel| ==>
                  o.journal[|journal| + 3 * j..|journal| + 3 * j + 3] ==
                  [PutItem(ids[j]), Notice(Message(ReportFor(rel, ids, env, j)), j !in env.undelivered),
                   UpdateItem(ids[j], {Notified})])
  {
    var rel := Relevant(items);
    var passes := Passes(rel, ids, env, |rel|);
    PassesDone(rel, ids, env, |rel|, |rel|);
    IngestDone(Progress(table, journal, None), passes, |rel|);
    forall j | 0 <= j < |rel|
      ensures (journal + Traces(passes, |rel|))[|journal| + 3 * j..|journal| + 3 * j + 3] ==
              [PutItem(ids[j]), Notice(Message(ReportFor(rel, ids, env, j)), j !in env.undelivered),
               UpdateItem(ids[j], {Notified})]
    {
      PassForItem(rel, ids, env, |rel|, j);
      TracesAfter(journal, passes, |rel|, j);
    }
  }

  /** When the k-th relevant item is the first that does not complete, the
      run answers 500 'Error processing RSS feed' with the error that item's
      pass threw: the date conversion's, or the failed table write's. */
  lemma CollectAborts(table: map<string, Item>, journal: seq<Effect>, items: seq<FeedItem>,
                      ids: seq<string>, env: Env, k: nat)
    requires items != [] && |items| <= |ids|
    requires k < |Relevant(items)|
    requires forall j :: 0 <= j < k ==> Completes(Relevant(items), ids, env, j)
    requires !Completes(Relevant(items), ids, env, k)
    ensures var o := Collect(table, journal, Channel(items), ids, env);
            var built := BuildReport(Relevant(items)[k], ids[k], env.isoDate);
            o.response == Failure(if built.Err? then InvalidDate else StoreWriteFailed)
  {
    var rel := Relevant(items);
    var passes := Passes(rel, ids, env, |rel|);
    PassesDone(rel, ids, env, k, |rel|);
    PassStops(rel, ids, env, |rel|, k);
    IngestAborts(Progress(table, journal, None), passes, k);
    StepThrows(Ingest(Progress(table, journal, None), passes, k), passes[k]);
  }

  /** When the k-th relevant item is the first that does not complete, the
      items before it keep their marked records. */
  lemma CollectAbortsKeeps(table: map<string, Item>, journal: seq<Effect>, items: seq<FeedItem>,
                           ids: seq<string>, env: Env, k: nat)
    requires items != [] && |items| <= |ids| && Distinct(ids)
    requires k < |Relevant(items)|
    requires forall j :: 0 <= j < k ==> Completes(Relevant(items), ids, env, j)
    requires !Completes(Relevant(items), ids, env, k)
    ensures var o := Collect(table, journal, Channel(items), ids, env);
            forall j :: 0 <= j < k ==>
              ids[j] in o.table &&
              o.table[ids[j]] == ToItem(ReportFor(Relevant(items), ids, env, j).(notified := true))
  {
    var rel := Relevant(items);
    var passes := Passes(rel, ids, env, |rel|);
    var p0 := Progress(table, journal, None);
    PassesDone(rel, ids, env, k, |rel|);
    PassStops(rel, ids, env, |rel|, k);
    forall j | 0 <= j < k
      ensures ids[j] in Ingest(p0, passes, |rel|).table
      ensures Ingest(p0, passes, |rel|).table[ids[j]] == ToItem(ReportFor(rel, ids, env, j).(notified := true))
    {
      AbortKeeps(p0, passes, k, j);
      MarkedRecordOf(rel, ids, env, |rel|, j);
    }
  }

  /** When the k-th relevant item is the first that does not complete, the
      items after it get no record. */
  lemma CollectAbortsLater(table: map<string, Item>, journal: seq<Effect>, items: seq<FeedItem>,
                           ids: seq<string>, env: Env, k: nat)
    requires items != [] && |items| <= |ids| && Distinct(ids)
    requires forall i :: 0 <= i < |ids| ==> ids[i] !in table
    requires k < |Relevant(items)|
    requires forall j :: 0 <= j < k ==> Completes(Relevant(items), ids, env, j)
    requires !Completes(Relevant(items), ids, env, k)
    ensures var o := Collect(table, journal, Channel(items), ids, env);
            forall j :: k < j < |Relevant(items)| ==> ids[j] !in o.table
  {
    var rel := Relevant(items);
    var passes := Passes(rel, ids, env, |rel|);
    var p0 := Progress(table, journal, None);
    PassesDone(rel, ids, env, k, |rel|);
    PassStops(rel, ids, env, |rel|, k);
    AbortTable(p0, passes, k);
    forall j | k < j < |rel|
      ensures ids[j] !in table + Written(passes, k)
    {
      WrittenKeys(passes, k, ids[j]);
    }
  }

  /** When the k-th relevant item is the first that does not complete, its
      record is stored, not marked, exactly when its mark write was the one
      that failed. */
  lemma CollectAbortsAt(table: map<string, Item>, journal: seq<Effect>, items: seq<FeedItem>,
                        ids: seq<string>, env: Env, k: nat)
    requires items != [] && |items| <= |ids| && Distinct(ids)
    requires forall i :: 0 <= i < |ids| ==> ids[i] !in table
    requires k < |Relevant(items)|
    requires forall j :: 0 <= j < k ==> Completes(Relevant(items), ids, env, j)
    requires !Completes(Relevant(items), ids, env, k)
    ensures var o := Collect(table, journal, Channel(items), ids, env);
            var built := BuildReport(Relevant(items)[k], ids[k], env.isoDate);
            && (ids[k] in o.table <==> built.Ok? && env.failAt == Some(2 * k + 1))
            && (ids[k] in o.table ==> o.table[ids[k]] == ToItem(built.value))
  {
    var rel := Relevant(items);
    var passes := Passes(rel, ids, env, |rel|);
    var p0 := Progress(table, journal, None);
    PassesDone(rel, ids, env, k, |rel|);
    PassesAt(rel, ids, env, |rel|, k);
    AbortTable(p0, passes, k);
    WrittenKeys(passes, k, ids[k]);
  }

  /** A run with no relevant item writes nothing and sends nothing; it
      answers "Processed 0 news items", or 500 when the channel has no item
      element at all. */
  lemma CollectNothingRelevant(table: map<string, Item>, journal: seq<Effect>, items: seq<FeedItem>,
                               ids: seq<string>, env: Env)
    requires |items| <= |ids|
    requires forall x :: x in items ==> !IsRelevant(x)
    ensures var o := Collect(table, journal, Channel(items), ids, env);
            && o.table == table && o.journal == journal
            && o.response == if items == [] then Failure(NoFeedItems) else Success(0)
  {
    RelevantNone(items);
  }

  /** A run whose feed cannot be fetched or parsed writes nothing, sends
      nothing and answers 500. */
  lemma CollectFetchFails(table: map<string, Item>, journal: seq<Effect>, fetch: Fetch,
                          ids: seq<string>, env: Env)
    requires !fetch.Channel?
    ensures var o := Collect(table, journal, fetch, ids, env);
            && o.table == table && o.journal == journal
            && o.response.statusCode == 500 && o.response.message == "Error processing RSS feed"
  {
  }

  /** The item of the tests' sample feed. */
  const SampleItem: FeedItem := FeedItem(
    "서울 도심에 싱크홀 발생", "https://test.com/news/1",
    Some(AttributedGuid("https://test.com/news/1", map["isPermaLink" := "true"])),
    "Tue, 15 Nov 2023 09:00:00 GMT", Some("테스트기자"), "도로에 싱크홀이 발생하여...",
    Some(Media("https://test.com/image1.jpg", "image/jpeg")))

  /** The sample item's title holds "sinkhole", so the filter keeps it. */
  lemma SampleRelevant()
    ensures Relevant([SampleItem]) == [SampleItem]
  {
    KeywordAnywhereMatches("서울 도심에 ", 0, " 발생");
    assert "서울 도심에 " + Keywords[0] + " 발생" == SampleItem.title;
  }

  /** A feed of the one sample item, whose date converts and whose writes
      succeed, is processed: "Processed 1 news items", with the record
      written, one notification attempted, and the record marked. */
  lemma SampleRun(table: map<string, Item>, journal: seq<Effect>, id: string, env: Env)
    requires env.isoDate(SampleItem.pubDate).Some? && env.failAt.None?
    ensures var o := Collect(table, journal, Channel([SampleItem]), [id], env);
            && o.response == RunResponse(200, "Processed 1 news items", None)
            && |o.journal| == |journal| + 3
            && o.journal[|journal|] == PutItem(id) && o.journal[|journal| + 1].Notice?
            && o.journal[|journal| + 2] == UpdateItem(id, {Notified})
  {
    SampleRelevant();
    assert Completes([SampleItem], [id], env, 0);
    assert Success(1) == RunResponse(200, "Processed 1 news items", None) by {
      assert Decimal(1) == "1";
    }
    CollectSucceeds(table, journal, [SampleItem], [id], env);
    CollectNotifies(table, journal, [SampleItem], [id], env);
  }

  /** The sample run stores the sample record under its id, marked notified. */
  lemma SampleRecord(table: map<string, Item>, journal: seq<Effect>, id: string, env: Env)
    requires env.isoDate(SampleItem.pubDate).Some? && env.failAt.None?
    ensures var o := Collect(table, journal, Channel([SampleItem]), [id], env);
            id in o.table && Notified in o.table[id] && Id in o.table[id]
            && o.table[id][Notified] == JBool(true) && o.table[id][Id] == JStr(id)
  {
    SampleRelevant();
    assert Completes([SampleItem], [id], env, 0);
    CollectRecords(table, journal, [SampleItem], [id], env);
    var r := ReportFor([SampleItem], [id], env, 0);
    BuildReportSpec(SampleItem, id, env.isoDate);
    ToItemShape(r.(notified := true));
  }
}
