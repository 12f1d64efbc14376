/** Request records of the operation runner, `okengine-operations/app.py`: projecting a record from the
    engine-owned receipt, the crash rule, and the sweep at startup. */
module OperationRequests {

  /** `TERMINAL`. An absent or null status is the empty string. */
  const TERMINAL: set<string> := {"succeeded", "degraded", "failed", "canceled", "planned"}

  /** A stored pid: an integer (0 when missing or null), or something `int()` rejects. */
  datatype Pid = Pid(number: int) | NotAPid

  datatype Record = Record(id: string, run: string, status: string, pid: Pid, finishedAt: string)

  /** The receipt file of a run: absent, unreadable or empty, or parsed. */
  datatype Receipt = NoReceipt | Garbled | Receipt(status: string, finishedAt: string)

  /** `pid_alive`: no number below one names a worker. */
  predicate PidAlive(pid: int, workers: set<int>) {
    pid > 0 && pid in workers
  }

  /** First half of `refresh`: copy what the receipt says. */
  function Projected(r: Record, receipt: Receipt, now: string): Record {
    match receipt
    case Receipt(status, finishedAt) =>
      r.(status := if status != "" then status else r.status,
         finishedAt := if status in TERMINAL then (if finishedAt != "" then finishedAt else now) else r.finishedAt)
    case _ => r
  }

  datatype Outcome = Raised | Refreshed(record: Record)

  /** `refresh`: the projection, then the crash rule for a worker that is gone while nothing in this
      process is still going to finalize it. */
  function Refresh(r: Record, receipt: Receipt, registered: bool, workers: set<int>, now: string): Outcome {
    var p := Projected(r, receipt, now);
    if p.status in TERMINAL || registered then Refreshed(p)
    else match p.pid
      case NotAPid => Raised
      case Pid(n) => if PidAlive(n, workers) then Refreshed(p) else Refreshed(p.(status := "failed", finishedAt := now))
  }

  // ---------------------------------------------------------------------------------------------
  // What any number of refreshes decide
  // ---------------------------------------------------------------------------------------------

  /** What one refresh finds around the record. */
  datatype Look = Look(receipt: Receipt, registered: bool, workers: set<int>, now: string)

  /** The record on disk after a refresh: unchanged when reading the pid raises. */
  function Seen(r: Record, look: Look): Record {
    match Refresh(r, look.receipt, look.registered, look.workers, look.now)
    case Raised => r
    case Refreshed(after) => after
  }

  function SeenAll(r: Record, looks: seq<Look>): Record {
    if looks == [] then r else Seen(SeenAll(r, looks[..|looks| - 1]), looks[|looks| - 1])
  }

  predicate Ends(receipt: Receipt) {
    receipt.Receipt? && receipt.status in TERMINAL
  }

  predicate Gone(pid: Pid, look: Look) {
    !look.registered && pid.Pid? && !PidAlive(pid.number, look.workers)
  }

  /** The look finds a receipt that says the run goes on, and the worker or its reaper still there. */
  predicate FindsRunning(pid: Pid, look: Look) {
    look.receipt.Receipt? && look.receipt.status != "" && !Gone(pid, look)
  }

  lemma {:induction false} SamePid(r: Record, looks: seq<Look>)
    ensures SeenAll(r, looks).pid == r.pid
  {
    if looks != [] {
      SamePid(r, looks[..|looks| - 1]);
    }
  }

  /** While no receipt says so, an unfinished request ends exactly when some refresh finds its worker
      gone and no reaper registered, and no later one finds it running again. */
  lemma {:induction false} EndedIff(r: Record, looks: seq<Look>)
    requires r.status !in TERMINAL
    requires forall i :: 0 <= i < |looks| ==> !Ends(looks[i].receipt)
    ensures SeenAll(r, looks).status in TERMINAL <==>
              exists i :: && 0 <= i < |looks| && Gone(r.pid, looks[i])
                          && forall j :: i < j < |looks| ==> !FindsRunning(r.pid, looks[j])
  {
    if looks != [] {
      var n := |looks| - 1;
      var before := SeenAll(r, looks[..n]);
      SamePid(r, looks[..n]);
      EndedIff(r, looks[..n]);
      SeenOnce(before, looks[n]);
      hide Seen, Gone, FindsRunning, Ends;
      if !Gone(r.pid, looks[n]) && !FindsRunning(r.pid, looks[n]) && before.status in TERMINAL {
        var i :| && 0 <= i < n && Gone(r.pid, looks[..n][i])
                 && forall j :: i < j < n ==> !FindsRunning(r.pid, looks[..n][j]);
        assert Gone(r.pid, looks[i]) && forall j :: i < j < |looks| && j != n ==> looks[..n][j] == looks[j];
      }
    }
  }

  lemma SeenOnce(r: Record, look: Look)
    requires !Ends(look.receipt)
    ensures Gone(r.pid, look) ==> Seen(r, look).status in TERMINAL
    ensures FindsRunning(r.pid, look) && (r.pid.Pid? || r.status !in TERMINAL) ==> Seen(r, look).status !in TERMINAL
    ensures !Gone(r.pid, look) && !FindsRunning(r.pid, look) ==> Seen(r, look).status == r.status
  {
  }

  /** A terminal receipt is authoritative, whatever record, reaper and worker said before: once a refresh
      has read it the record says the same for good, even where the receipt is later lost or garbled. */
  lemma {:induction false} TerminalReceiptWins(r: Record, looks: seq<Look>, i: nat)
    requires i < |looks| && Ends(looks[i].receipt)
    requires forall j :: i < j < |looks| && looks[j].receipt.Receipt? ==>
              looks[j].receipt.status in {"", looks[i].receipt.status}
    ensures SeenAll(r, looks).status == looks[i].receipt.status
    decreases |looks|
  {
    var n := |looks| - 1;
    if i < n {
      TerminalReceiptWins(r, looks[..n], i);
      assert looks[n].receipt.Receipt? ==> looks[n].receipt.status in {"", looks[i].receipt.status};
    }
  }

  /** With the worker gone and no reaper, the first refresh settles the record and no number of later ones
      with the same receipt changes its status: even a receipt that still says `running` cannot reopen it. */
  lemma {:induction false} SettledStaysSettled(r: Record, looks: seq<Look>)
    requires looks != [] && r.pid.Pid?
    requires forall i :: 0 <= i < |looks| ==> Gone(r.pid, looks[i]) && looks[i].receipt == looks[0].receipt
    ensures SeenAll(r, looks).status in TERMINAL
    ensures SeenAll(r, looks).status == Seen(r, looks[0]).status
    decreases |looks|
  {
    var n := |looks| - 1;
    assert looks[..0] == [];
    if n > 0 {
      SettledStaysSettled(r, looks[..n]);
      SamePid(r, looks[..n]);
      assert Gone(r.pid, looks[n]) && looks[n].receipt == looks[0].receipt;
      assert Gone(r.pid, looks[0]);
      SettledAgain(r, SeenAll(r, looks[..n]), looks[0], looks[n]);
    }
  }

  lemma SettledAgain(r: Record, now: Record, first: Look, look: Look)
    requires Gone(r.pid, first) && Gone(r.pid, look) && look.receipt == first.receipt
    requires now.pid == r.pid && now.status == Seen(r, first).status && now.status in TERMINAL
    ensures Seen(now, look).status == now.status
  {
  }

  /** The receipt still says the run is under way. */
  predicate Reopens(receipt: Receipt) {
    receipt.Receipt? && receipt.status != "" && receipt.status !in TERMINAL
  }

  /** The crash rule finds the worker dead: the record would go on, and nobody is left to end it. */
  predicate FoundDead(r: Record, look: Look) {
    Gone(r.pid, look) && !Ends(look.receipt) && (Reopens(look.receipt) || r.status !in TERMINAL)
  }

  /** One refresh. It raises exactly when a record that would go on has a pid that is no number and no
      reaper. Otherwise the status is the receipt's, `failed` for a worker found dead, or the one the
      record had; the finish time is the terminal receipt's, now where that has none or the worker is found
      dead, or the one the record had; nothing else moves. */
  lemma RefreshOnce(r: Record, look: Look)
    ensures var outcome, after := Refresh(r, look.receipt, look.registered, look.workers, look.now), Seen(r, look);
            && (outcome == Raised <==> r.pid.NotAPid? && !look.registered && !Ends(look.receipt)
                                       && (Reopens(look.receipt) || r.status !in TERMINAL))
            && after.id == r.id && after.run == r.run && after.pid == r.pid
            && after.status ==
                 (if Ends(look.receipt) then look.receipt.status
                  else if FoundDead(r, look) then "failed"
                  else if Reopens(look.receipt) && outcome != Raised then look.receipt.status
                  else r.status)
            && after.finishedAt ==
                 (if Ends(look.receipt) then (if look.receipt.finishedAt != "" then look.receipt.finishedAt
                     else look.now)
                  else if FoundDead(r, look) then look.now
                  else r.finishedAt)
  {
  }

  /** Once the worker and its reaper are gone, any number of refreshes with the same receipt leave the
      receipt's own finish time, if it is terminal and has one. A terminal receipt without one, and one
      that still says the run is under way, let the finish time follow the clock of the last refresh;
      without either it is the time of the first refresh, or the one the record had when it had ended. */
  lemma {:induction false} FinishTimeSettles(r: Record, looks: seq<Look>)
    requires looks != [] && r.pid.Pid?
    requires forall i :: 0 <= i < |looks| ==> Gone(r.pid, looks[i]) && looks[i].receipt == looks[0].receipt
    ensures var receipt := looks[0].receipt;
            SeenAll(r, looks).finishedAt ==
              if Ends(receipt) && receipt.finishedAt != "" then receipt.finishedAt
              else if Ends(receipt) || Reopens(receipt) then looks[|looks| - 1].now
              else if r.status in TERMINAL then r.finishedAt
              else looks[0].now
    decreases |looks|
  {
    var n := |looks| - 1;
    var before := SeenAll(r, looks[..n]);
    assert Gone(r.pid, looks[n]) && Gone(r.pid, looks[0]) && looks[n].receipt == looks[0].receipt;
    SamePid(r, looks[..n]);
    RefreshOnce(before, looks[n]);
    if n > 0 {
      FinishTimeSettles(r, looks[..n]);
      SettledStaysSettled(r, looks[..n]);
    } else {
      assert looks[..0] == [];
    }
    hide Seen, Ends, Reopens, Gone;
  }

  // ---------------------------------------------------------------------------------------------
  // The service
  // ---------------------------------------------------------------------------------------------

  /** A request file: unreadable or not an object, or a record. */
  datatype Document = Corrupt | Stored(record: Record)

  datatype Stats = Stats(checked: nat, reconciled: nat, errors: nat)

  /** What the sweep does with one document: a corrupt one and one whose pid cannot be read are errors,
      a finished one is skipped, the others are rewritten, with or without a new status. */
  datatype Fate = Faulty | Finished | Unreadable | Settled(after: Record) | Checked(after: Record)

  function Bump(stats: Stats, f: Fate): Stats {
    Stats(stats.checked + (if f.Unreadable? || f.Settled? || f.Checked? then 1 else 0),
          stats.reconciled + (if f.Settled? then 1 else 0),
          stats.errors + (if f.Faulty? || f.Unreadable? then 1 else 0))
  }

  /** The counters after the documents with these fates. */
  function Tally(fates: seq<Fate>): Stats {
    if fates == [] then Stats(0, 0, 0) else Bump(Tally(fates[..|fates| - 1]), fates[|fates| - 1])
  }

  class Service {
    var requests: map<string, Document>   // the request files, by request id
    var receipts: map<string, Receipt>    // the receipt files, by run id
    var processes: set<string>            // _PROCESSES: requests whose reaper runs in this process

    constructor (requests: map<string, Document>, receipts: map<string, Receipt>)
      ensures this.requests == requests && this.receipts == receipts && processes == {}
    {
      this.requests := requests;
      this.receipts := receipts;
      processes := {};
    }

    function ReceiptOf(r: Record): Receipt
      reads this`receipts
    {
      if r.run in receipts then receipts[r.run] else NoReceipt
    }

    /** What `refresh` makes of a record now. */
    function Outlook(r: Record, workers: set<int>, now: string): Outcome
      reads this`receipts, this`processes
    {
      Refresh(r, ReceiptOf(r), r.id in processes, workers, now)
    }

    /** `refresh(path, value)`: the record is rewritten unless reading the pid raises. */
    method RefreshRequest(id: string, r: Record, workers: set<int>, now: string) returns (outcome: Outcome)
      modifies this`requests
      ensures outcome == old(Outlook(r, workers, now))
      ensures requests == if outcome.Refreshed? then old(requests)[id := Stored(outcome.record)] else old(requests)
    {
      var value := Projected(r, ReceiptOf(r), now);
      if value.status !in TERMINAL && value.id !in processes {
        if value.pid.NotAPid? {
          return Raised;
        }
        if !PidAlive(value.pid.number, workers) {
          value := value.(status := "failed", finishedAt := now);
        }
      }
      requests := requests[id := Stored(value)];
      outcome := Refreshed(value);
    }

    /** What the sweep does with one document. */
    function Fate(d: Document, workers: set<int>, now: string): Fate
      reads this`receipts, this`processes
    {
      match d
      case Corrupt => Faulty
      case Stored(r) =>
        if r.status in TERMINAL then Finished
        else match Outlook(r, workers, now)
          case Raised => Unreadable
          case Refreshed(after) => if after.status != r.status then Settled(after) else Checked(after)
    }

    function Swept(d: Document, workers: set<int>, now: string): Document
      reads this`receipts, this`processes
    {
      match Fate(d, workers, now)
      case Settled(after) => Stored(after)
      case Checked(after) => Stored(after)
      case _ => d
    }

    function FatesOf(docs: map<string, Document>, files: seq<string>, workers: set<int>, now: string): seq<Fate>
      requires forall i :: 0 <= i < |files| ==> files[i] in docs
      reads this`receipts, this`processes
    {
      if files == [] then []
      else FatesOf(docs, files[..|files| - 1], workers, now) + [Fate(docs[files[|files| - 1]], workers, now)]
    }

    lemma TallyOneMore(docs: map<string, Document>, files: seq<string>, k: nat, workers: set<int>, now: string)
      requires k < |files| && forall i :: 0 <= i < |files| ==> files[i] in docs
      ensures Tally(FatesOf(docs, files[..k + 1], workers, now))
           == Bump(Tally(FatesOf(docs, files[..k], workers, now)), Fate(docs[files[k]], workers, now))
    {
      assert files[..k + 1][..k] == files[..k];
      var fates := FatesOf(docs, files[..k], workers, now);
      assert (fates + [Fate(docs[files[k]], workers, now)])[..|fates|] == fates;
    }

    /** The first `k` files have been swept; the other files, and whatever is not among them, are as they
        were. */
    ghost predicate SweptUpTo(docs: map<string, Document>, before: map<string, Document>, files: seq<string>, k: nat,
                              workers: set<int>, now: string)
      reads this`receipts, this`processes
    {
      && docs.Keys == before.Keys
      && (forall i :: 0 <= i < |files| ==> files[i] in before)
      && (forall i :: 0 <= i < |files| ==>
            docs[files[i]] == if i < k then Swept(before[files[i]], workers, now) else before[files[i]])
      && (forall f :: f in before && f !in files ==> docs[f] == before[f])
    }

    lemma SweptBounds(docs: map<string, Document>, before: map<string, Document>, files: seq<string>,
                      workers: set<int>, now: string)
      requires forall i :: 0 <= i < |files| ==> files[i] in before
      ensures docs == before ==> SweptUpTo(docs, before, files, 0, workers, now)
      ensures Tally(FatesOf(before, files[..0], workers, now)) == Stats(0, 0, 0)
      ensures files[..|files|] == files
    {
    }

    lemma SweptOneMore(docs: map<string, Document>, before: map<string, Document>, files: seq<string>, k: nat,
                       workers: set<int>, now: string)
      requires SweptUpTo(docs, before, files, k, workers, now) && k < |files|
      requires forall i, j :: 0 <= i < j < |files| ==> files[i] != files[j]
      ensures files[k] in docs && docs[files[k]] == before[files[k]]
      ensures SweptUpTo(docs[files[k] := Swept(before[files[k]], workers, now)], before, files, k + 1, workers, now)
    {
    }

    /** One turn of the sweep. */
    method SweepOne(id: string, workers: set<int>, now: string, stats0: Stats) returns (stats: Stats)
      requires id in requests
      modifies this`requests
      ensures requests == old(requests)[id := Swept(old(requests)[id], workers, now)]
      ensures stats == Bump(stats0, Fate(old(requests)[id], workers, now))
    {
      stats := stats0;
      match requests[id] {
        case Corrupt =>
          stats := stats.(errors := stats.errors + 1);
        case Stored(r) =>
          if r.status !in TERMINAL {
            stats := stats.(checked := stats.checked + 1);
            var outcome := RefreshRequest(id, r, workers, now);
            if outcome.Raised? {
              stats := stats.(errors := stats.errors + 1);
            } else if outcome.record.status != r.status {
              stats := stats.(reconciled := stats.reconciled + 1);
            }
          }
      }
    }

    /** The record is readable and unfinished, and its worker is gone. */
    predicate Dangling(d: Document, workers: set<int>) {
      d.Stored? && d.record.status !in TERMINAL && d.record.pid.Pid? && !PidAlive(d.record.pid.number, workers)
    }

    /** A freshly started service, which has no reapers, leaves none dangling. */
    lemma NoneDangling(docs: map<string, Document>, before: map<string, Document>, files: seq<string>,
                       workers: set<int>, now: string)
      requires SweptUpTo(docs, before, files, |files|, workers, now)
      ensures processes == {} ==> forall i :: 0 <= i < |files| ==> !Dangling(docs[files[i]], workers)
    {
    }

    /** The listed records the sweep looks at: readable and unfinished. */
    function Unfinished(docs: map<string, Document>, files: seq<string>): set<int>
      requires forall i :: 0 <= i < |files| ==> files[i] in docs
    {
      set i | 0 <= i < |files| && docs[files[i]].Stored? && docs[files[i]].record.status !in TERMINAL
    }

    /** The listed records that cannot be read, or whose refresh raises. */
    function Failing(docs: map<string, Document>, files: seq<string>, workers: set<int>, now: string): set<int>
      requires forall i :: 0 <= i < |files| ==> files[i] in docs
      reads this`receipts, this`processes
    {
      set i | 0 <= i < |files|
              && (docs[files[i]].Corrupt?
                  || (i in Unfinished(docs, files) && Outlook(docs[files[i]].record, workers, now) == Raised))
    }

    /** The listed records whose status the sweep changes. */
    function Moved(before: map<string, Document>, after: map<string, Document>, files: seq<string>): set<int>
      requires forall i :: 0 <= i < |files| ==> files[i] in before && files[i] in after
    {
      set i | 0 <= i < |files| && before[files[i]].Stored? && after[files[i]].Stored?
              && after[files[i]].record.status != before[files[i]].record.status
    }

    lemma TallyLast(docs: map<string, Document>, files: seq<string>, workers: set<int>, now: string)
      requires files != [] && forall i :: 0 <= i < |files| ==> files[i] in docs
      ensures Tally(FatesOf(docs, files, workers, now))
           == Bump(Tally(FatesOf(docs, files[..|files| - 1], workers, now)),
                   Fate(docs[files[|files| - 1]], workers, now))
    {
      TallyOneMore(docs, files, |files| - 1, workers, now);
      assert files[..|files|] == files;
    }

    lemma {:induction false} CountsAre(docs: map<string, Document>, files: seq<string>, workers: set<int>, now: string)
      requires forall i :: 0 <= i < |files| ==> files[i] in docs
      ensures var stats := Tally(FatesOf(docs, files, workers, now));
              && stats.checked == |Unfinished(docs, files)|
              && stats.errors == |Failing(docs, files, workers, now)|
              && stats.reconciled == |Resettled(docs, files, workers, now)|
    {
      if files != [] {
        var n := |files| - 1;
        CountsAre(docs, files[..n], workers, now);
        TallyLast(docs, files, workers, now);
        OneMoreFile(docs, files, workers, now);
        FateIs(docs[files[n]], workers, now);
        hide FatesOf, Tally, Unfinished, Failing, Resettled, Fate;
      } else {
        NoFiles(docs, workers, now);
      }
    }

    /** The listed records whose refresh gives another status. */
    function Resettled(docs: map<string, Document>, files: seq<string>, workers: set<int>, now: string): set<int>
      requires forall i :: 0 <= i < |files| ==> files[i] in docs
      reads this`receipts, this`processes
    {
      set i | 0 <= i < |files| && Settles(docs[files[i]], workers, now)
    }

    predicate Settles(d: Document, workers: set<int>, now: string)
      reads this`receipts, this`processes
    {
      && d.Stored? && d.record.status !in TERMINAL && Outlook(d.record, workers, now).Refreshed?
      && Outlook(d.record, workers, now).record.status != d.record.status
    }

    predicate Fails(d: Document, workers: set<int>, now: string)
      reads this`receipts, this`processes
    {
      d.Corrupt? || (d.record.status !in TERMINAL && Outlook(d.record, workers, now) == Raised)
    }

    predicate Goes(d: Document) {
      d.Stored? && d.record.status !in TERMINAL
    }

    lemma FateIs(d: Document, workers: set<int>, now: string)
      ensures var f := Fate(d, workers, now);
              && (f.Unreadable? || f.Settled? || f.Checked? <==> Goes(d))
              && (f.Faulty? || f.Unreadable? <==> Fails(d, workers, now))
              && (f.Settled? <==> Settles(d, workers, now))
    {
      hide Outlook;
    }

    lemma NoFiles(docs: map<string, Document>, workers: set<int>, now: string)
      ensures FatesOf(docs, [], workers, now) == [] && Unfinished(docs, []) == {}
      ensures Failing(docs, [], workers, now) == {} && Resettled(docs, [], workers, now) == {}
    {
    }

    lemma OneMoreFile(docs: map<string, Document>, files: seq<string>, workers: set<int>, now: string)
      requires files != [] && forall i :: 0 <= i < |files| ==> files[i] in docs
      ensures var n := |files| - 1;
              var d := docs[files[n]];
              && |Unfinished(docs, files)| == |Unfinished(docs, files[..n])| + (if Goes(d) then 1 else 0)
              && |Failing(docs, files, workers, now)|
                   == |Failing(docs, files[..n], workers, now)| + (if Fails(d, workers, now) then 1 else 0)
              && |Resettled(docs, files, workers, now)|
                   == |Resettled(docs, files[..n], workers, now)| + (if Settles(d, workers, now) then 1 else 0)
    {
      OneMoreUnfinished(docs, files);
      OneMoreFailing(docs, files, workers, now);
      OneMoreResettled(docs, files, workers, now);
      hide *;
    }

    lemma OneMoreUnfinished(docs: map<string, Document>, files: seq<string>)
      requires files != [] && forall i :: 0 <= i < |files| ==> files[i] in docs
      ensures var n := |files| - 1;
              |Unfinished(docs, files)| == |Unfinished(docs, files[..n])| + if Goes(docs[files[n]]) then 1 else 0
    {
      var n := |files| - 1;
      assert Unfinished(docs, files) == Unfinished(docs, files[..n]) + if Goes(docs[files[n]]) then {n} else {};
    }

    lemma OneMoreFailing(docs: map<string, Document>, files: seq<string>, workers: set<int>, now: string)
      requires files != [] && forall i :: 0 <= i < |files| ==> files[i] in docs
      ensures var n := |files| - 1;
              |Failing(docs, files, workers, now)|
                == |Failing(docs, files[..n], workers, now)| + if Fails(docs[files[n]], workers, now) then 1 else 0
    {
      hide Outlook;
      var n := |files| - 1;
      assert forall i :: 0 <= i < n ==> (i in Unfinished(docs, files) <==> i in Unfinished(docs, files[..n]));
      assert n in Unfinished(docs, files) <==> Goes(docs[files[n]]);
      hide Unfinished;
      assert Failing(docs, files, workers, now)
          == Failing(docs, files[..n], workers, now) + if Fails(docs[files[n]], workers, now) then {n} else {};
    }

    lemma OneMoreResettled(docs: map<string, Document>, files: seq<string>, workers: set<int>, now: string)
      requires files != [] && forall i :: 0 <= i < |files| ==> files[i] in docs
      ensures var n := |files| - 1;
              |Resettled(docs, files, workers, now)|
                == |Resettled(docs, files[..n], workers, now)| + if Settles(docs[files[n]], workers, now) then 1 else 0
    {
      hide Settles;
      var n := |files| - 1;
      assert Resettled(docs, files, workers, now)
          == Resettled(docs, files[..n], workers, now) + if Settles(docs[files[n]], workers, now) then {n} else {};
    }

    /** After the sweep these are the records whose status moved. */
    lemma ResettledMoved(docs: map<string, Document>, before: map<string, Document>, files: seq<string>,
                         workers: set<int>, now: string)
      requires SweptUpTo(docs, before, files, |files|, workers, now)
      ensures Resettled(before, files, workers, now) == Moved(before, docs, files)
    {
      forall i | 0 <= i < |files|
        ensures Settles(before[files[i]], workers, now) <==>
                  && before[files[i]].Stored? && docs[files[i]].Stored?
                  && docs[files[i]].record.status != before[files[i]].record.status
      {
        assert docs[files[i]] == Swept(before[files[i]], workers, now);
      }
      hide Settles, SweptUpTo;
    }

    lemma SweepCounts(docs: map<string, Document>, before: map<string, Document>, files: seq<string>,
                      workers: set<int>, now: string)
      requires SweptUpTo(docs, before, files, |files|, workers, now)
      ensures Tally(FatesOf(before, files, workers, now))
           == Stats(|Unfinished(before, files)|, |Moved(before, docs, files)|, |Failing(before, files, workers, now)|)
    {
      CountsAre(before, files, workers, now);
      ResettledMoved(docs, before, files, workers, now);
      hide Tally, FatesOf, Unfinished, Moved, Failing, Resettled;
    }

    /** `reconcile_requests`, over the sorted request files: every readable non-terminal record is
        refreshed; a corrupt one is counted and left alone. In a freshly started service no readable
        unfinished record is left with its worker gone. */
    method ReconcileRequests(files: seq<string>, workers: set<int>, now: string) returns (stats: Stats)
      requires forall i :: 0 <= i < |files| ==> files[i] in requests
      requires forall i, j :: 0 <= i < j < |files| ==> files[i] != files[j]
      modifies this`requests
      ensures SweptUpTo(requests, old(requests), files, |files|, workers, now)
      ensures stats == Tally(FatesOf(old(requests), files, workers, now))
      ensures stats == Stats(|Unfinished(old(requests), files)|, |Moved(old(requests), requests, files)|,
                             |Failing(old(requests), files, workers, now)|)
      ensures processes == {} ==> forall i :: 0 <= i < |files| ==> !Dangling(requests[files[i]], workers)
    {
      stats := Stats(0, 0, 0);
      ghost var before := requests;
      SweptBounds(requests, before, files, workers, now);
      hide *;
      for k := 0 to |files|
        invariant SweptUpTo(requests, before, files, k, workers, now)
        invariant stats == Tally(FatesOf(before, files[..k], workers, now))
      {
        TallyOneMore(before, files, k, workers, now);
        SweptOneMore(requests, before, files, k, workers, now);
        stats := SweepOne(files[k], workers, now, stats);
      }
      NoneDangling(requests, before, files, workers, now);
      SweepCounts(requests, before, files, workers, now);
    }
  }
}
