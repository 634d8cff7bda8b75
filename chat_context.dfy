/** The token-budgeted conversation window (JGP.DotNetGPT/ChatContext.cs).

    `ChatContext` keeps a history of shared `Message` objects, to which its own methods only ever
    append (`DumpContext` hands out the history itself in the source). `GetSafeContext` scans it
    from the newest message backwards and returns the newest messages it takes: it stops once
    the running total reaches the token budget, before a message that would overflow it, and at
    a message equal to one already taken; messages whose token count is zero or larger than the
    whole budget get their content overwritten in place.

    The scan is specified over a snapshot of the history taken when it starts (`Entry`: the
    message object and its fields at that moment), by the pure functions `Taken`, `Probed` and
    `DataAfterScan`; the lemmas below state what the window guarantees, and the method is
    proved to compute exactly that window and those overwrites. */
module ChatContexts {
  import opened Wrappers
  import opened CoreModels

  const TruncatedContent: string := "Truncated message"
  const ResetNotice: string := "The chat context was reset due to an error."

  const GPT4: string := "gpt-4"
  const GPT40613: string := "gpt-4-0613"
  const GPT432k: string := "gpt-4-32k"
  const GPT432k0613: string := "gpt-4-32k-0613"
  const GPT35Turbo: string := "gpt-3.5-turbo"
  const GPT35Turbo16k: string := "gpt-3.5-turbo-16k"
  const GPT35Turbo0613: string := "gpt-3.5-turbo-0613"
  const GPT35Turbo16k0613: string := "gpt-3.5-turbo-16k-0613"

  /** The token budget of a model: a fixed table, with 3500 for any model id it does not list. */
  function GetContextLimit(model: string): (limit: int)
    ensures 3500 <= limit <= 31500
    ensures model !in {GPT4, GPT40613, GPT432k, GPT432k0613, GPT35Turbo16k, GPT35Turbo16k0613} ==> limit == 3500
    ensures limit == 7500 <==> model == GPT4 || model == GPT40613
    ensures limit == 15500 <==> model == GPT35Turbo16k || model == GPT35Turbo16k0613
    ensures limit == 31050 <==> model == GPT432k
    ensures limit == 31500 <==> model == GPT432k0613
  {
    if model == GPT4 then 7500
    else if model == GPT40613 then 7500
    else if model == GPT432k then 31050
    else if model == GPT432k0613 then 31500
    else if model == GPT35Turbo then 3500
    else if model == GPT35Turbo16k then 15500
    else if model == GPT35Turbo0613 then 3500
    else if model == GPT35Turbo16k0613 then 15500
    else 3500
  }

  /** One history slot as the scan finds it: the shared message object and its fields then. */
  datatype Entry = Entry(msg: Message, data: MessageData)

  /** What a scan depends on besides the history: the budget, the token count of a message's
      serialized fields, and `FunctionCall.Equals`. */
  datatype Policy = Policy(limit: int, tokens: MessageData -> nat, fcEquals: FunctionCallEquality)

  function Cost(e: Entry, p: Policy): nat
  {
    p.tokens(e.data)
  }

  /** The token count of the newest `k` slots. */
  function TailCost(es: seq<Entry>, p: Policy, k: nat): nat
    requires k <= |es|
  {
    if k == 0 then 0 else Cost(es[|es| - k], p) + TailCost(es, p, k - 1)
  }

  /** The newest `k` slots. */
  function Tail(es: seq<Entry>, k: nat): (tail: seq<Entry>)
    requires k <= |es|
    ensures |tail| == k && forall x :: 0 <= x < k ==> tail[x] == es[|es| - k + x]
  {
    seq(k, x requires 0 <= x < k => es[|es| - k + x])
  }

  function Msgs(es: seq<Entry>): (ms: seq<Message>)
    ensures |ms| == |es| && forall i :: 0 <= i < |es| ==> ms[i] == es[i].msg
  {
    seq(|es|, i requires 0 <= i < |es| => es[i].msg)
  }

  /** The fields a scanned message is left with: zero-cost and oversized messages lose their content. */
  function Settled(d: MessageData, p: Policy): MessageData
  {
    if p.tokens(d) == 0 || p.tokens(d) > p.limit then d.(content := Some(TruncatedContent)) else d
  }

  /** Slot `j` equals (by `Message.Equals` of the later message) one of the slots after it, those
      holding the fields the scan left them with. */
  predicate Duplicate(es: seq<Entry>, j: nat, p: Policy)
    requires j < |es|
  {
    exists t :: j < t < |es| && SnapshotEquals(es[t].msg, Settled(es[t].data, p), es[j].msg, es[j].data, p.fcEquals)
  }

  /** Having taken the newest `k` slots, the scan stops: the history is used up, the running total
      has reached the budget, the next slot repeats a taken message, or it would overflow the budget. */
  predicate Halts(es: seq<Entry>, p: Policy, k: nat)
    requires k <= |es|
  {
    || k == |es|
    || TailCost(es, p, k) >= p.limit
    || Duplicate(es, |es| - 1 - k, p)
    || TailCost(es, p, k) + Cost(es[|es| - 1 - k], p) > p.limit
  }

  function TakenFrom(es: seq<Entry>, p: Policy, k: nat): (n: nat)
    requires k <= |es|
    ensures k <= n <= |es|
    decreases |es| - k
  {
    if Halts(es, p, k) then k else TakenFrom(es, p, k + 1)
  }

  /** How many of the newest messages the scan takes. */
  function Taken(es: seq<Entry>, p: Policy): nat
  {
    TakenFrom(es, p, 0)
  }

  /** How many of the newest messages had their token count computed (and so may have been
      truncated): the taken ones, plus the one that overflowed the budget if that is why it stopped. */
  function Probed(es: seq<Entry>, p: Policy): nat
  {
    var k := Taken(es, p);
    if k < |es| && TailCost(es, p, k) < p.limit && !Duplicate(es, |es| - 1 - k, p) then k + 1 else k
  }

  /** The fields of slot `i`'s message once the scan is over (the message may sit in several slots). */
  function DataAfterScan(es: seq<Entry>, p: Policy, i: nat): MessageData
    requires i < |es|
  {
    if es[i].msg in Msgs(Tail(es, Probed(es, p))) then Settled(es[i].data, p) else es[i].data
  }

  ghost function Snapshot(h: seq<Message>): (es: seq<Entry>)
    reads h
    ensures |es| == |h| && forall i :: 0 <= i < |h| ==> es[i] == Entry(h[i], h[i].Data())
  {
    seq(|h|, i requires 0 <= i < |h| reads h => Entry(h[i], h[i].Data()))
  }

  /** The fields of the system message that announces a reset. */
  const ResetData: MessageData := MessageData(Some(SystemRole), Some(ResetNotice), None, None)

  ghost predicate IsResetMessage(m: Message)
    reads m
  {
    m.runtimeType == MessageTypeName && m.Data() == ResetData
  }

  /** `context` is what `GetSafeContext` returns for a history that was `es` when it was called:
      the taken suffix, or the single reset message when nothing was taken. */
  ghost predicate IsSafeContext(context: seq<Message>, es: seq<Entry>, p: Policy)
    reads context
  {
    var k := Taken(es, p);
    if k == 0 then |context| == 1 && IsResetMessage(context[0]) else context == Msgs(Tail(es, k))
  }

  /** `h` holds the messages of `es`, each with the fields the scan left it. */
  ghost predicate HistoryScanned(h: seq<Message>, es: seq<Entry>, p: Policy)
    reads h
  {
    |h| == |es| && forall i :: 0 <= i < |h| ==> h[i] == es[i].msg && h[i].Data() == DataAfterScan(es, p, i)
  }

  // ---------------------------------------------------------------------------------------------
  // What the window guarantees

  lemma {:induction false} TakenFromIsFirstHalt(es: seq<Entry>, p: Policy, k: nat)
    requires k <= |es|
    ensures Halts(es, p, TakenFrom(es, p, k))
    ensures forall j :: k <= j < TakenFrom(es, p, k) ==> !Halts(es, p, j)
    decreases |es| - k
  {
    if !Halts(es, p, k) {
      TakenFromIsFirstHalt(es, p, k + 1);
    }
  }

  /** The scan takes messages up to the first point where it must stop, and not beyond. */
  lemma TakenIsFirstHalt(es: seq<Entry>, p: Policy)
    ensures Taken(es, p) <= |es|
    ensures Halts(es, p, Taken(es, p))
    ensures forall j :: 0 <= j < Taken(es, p) ==> !Halts(es, p, j)
  {
    TakenFromIsFirstHalt(es, p, 0);
  }

  /** Conversely, the first point where the scan must stop is how many it takes. */
  lemma FirstHaltIsTaken(es: seq<Entry>, p: Policy, k: nat)
    requires k <= |es| && Halts(es, p, k)
    requires forall j :: 0 <= j < k ==> !Halts(es, p, j)
    ensures Taken(es, p) == k
  {
    TakenIsFirstHalt(es, p);
  }

  // One step of the backward scan, having taken the newest `k` slots without meeting a reason
  // to stop (so `k <= Taken(es, p)`).

  /** The history is used up or the budget reached: the scan stops here. */
  lemma ScanEndsAt(es: seq<Entry>, p: Policy, k: nat)
    requires k <= Taken(es, p) && k <= |es|
    requires k == |es| || TailCost(es, p, k) >= p.limit
    ensures Taken(es, p) == k && Probed(es, p) == k
  {
    TakenIsFirstHalt(es, p);
    assert Halts(es, p, k);
  }

  /** The next slot repeats a taken message: the scan stops here without probing it. */
  lemma ScanEndsOnRepeat(es: seq<Entry>, p: Policy, k: nat)
    requires k <= Taken(es, p) && k < |es|
    requires Duplicate(es, |es| - 1 - k, p)
    ensures Taken(es, p) == k && Probed(es, p) == k
  {
    TakenIsFirstHalt(es, p);
    assert Halts(es, p, k);
  }

  /** The next slot does not fit in what is left of the budget: the scan stops here, having probed it. */
  lemma ScanEndsOnOverflow(es: seq<Entry>, p: Policy, k: nat)
    requires k <= Taken(es, p) && k < |es|
    requires TailCost(es, p, k) < p.limit && !Duplicate(es, |es| - 1 - k, p)
    requires TailCost(es, p, k) + Cost(es[|es| - 1 - k], p) > p.limit
    ensures Taken(es, p) == k && Probed(es, p) == k + 1
  {
    TakenIsFirstHalt(es, p);
    assert Halts(es, p, k);
  }

  /** Otherwise the next slot is taken. */
  lemma ScanTakesNext(es: seq<Entry>, p: Policy, k: nat)
    requires k <= Taken(es, p) && k < |es|
    requires TailCost(es, p, k) < p.limit && !Duplicate(es, |es| - 1 - k, p)
    requires TailCost(es, p, k) + Cost(es[|es| - 1 - k], p) <= p.limit
    ensures k + 1 <= Taken(es, p)
    ensures TailCost(es, p, k + 1) == TailCost(es, p, k) + Cost(es[|es| - 1 - k], p)
  {
    TakenIsFirstHalt(es, p);
  }

  /** Budget: the token counts of the taken messages add up to at most the limit, and so no
      taken message alone exceeds it. */
  lemma {:induction false} WindowWithinBudget(es: seq<Entry>, p: Policy)
    requires p.limit >= 0
    ensures TailCost(es, p, Taken(es, p)) <= p.limit
    ensures forall i :: |es| - Taken(es, p) <= i < |es| ==> Cost(es[i], p) <= p.limit
  {
    TakenIsFirstHalt(es, p);
    var k := Taken(es, p);
    if k > 0 {
      assert !Halts(es, p, k - 1);
    }
    forall i | |es| - k <= i < |es|
      ensures Cost(es[i], p) <= p.limit
    {
      var j := |es| - 1 - i;
      assert !Halts(es, p, j);
    }
  }

  /** An oversized message (more tokens than the whole budget) is never taken, and neither is
      anything older than it. */
  lemma OversizedNeverTaken(es: seq<Entry>, p: Policy, i: nat)
    requires p.limit >= 0
    requires i < |es| && Cost(es[i], p) > p.limit
    ensures i < |es| - Taken(es, p)
  {
    WindowWithinBudget(es, p);
  }

  /** No duplicate turns: no taken message equals (by `Message.Equals` of the newer one, holding
      the fields the scan left it) an older taken message; in particular no object is taken twice. */
  lemma WindowHasNoDuplicates(es: seq<Entry>, p: Policy)
    ensures forall i, t :: |es| - Taken(es, p) <= i < t < |es| ==>
              !SnapshotEquals(es[t].msg, Settled(es[t].data, p), es[i].msg, es[i].data, p.fcEquals)
    ensures forall i, t :: |es| - Taken(es, p) <= i < t < |es| ==> es[i].msg != es[t].msg
  {
    TakenIsFirstHalt(es, p);
    var k := Taken(es, p);
    forall i, t | |es| - k <= i < t < |es|
      ensures !SnapshotEquals(es[t].msg, Settled(es[t].data, p), es[i].msg, es[i].data, p.fcEquals)
    {
      assert !Halts(es, p, |es| - 1 - i);
    }
  }

  /** When no taken message had a zero token count (so none was overwritten), the window has no
      two equal messages as they stand after the scan either. */
  lemma SettledWindowHasNoDuplicates(es: seq<Entry>, p: Policy)
    requires p.limit >= 0
    requires WindowCostsPositive(es, p)
    ensures forall i, t :: |es| - Taken(es, p) <= i < t < |es| ==>
              !SnapshotEquals(es[t].msg, Settled(es[t].data, p), es[i].msg, Settled(es[i].data, p), p.fcEquals)
  {
    WindowHasNoDuplicates(es, p);
    WindowWithinBudget(es, p);
  }

  /** Maximality: when the scan stops early with budget to spare, the next older message either
      repeats a taken one or does not fit in what is left. */
  lemma WindowIsMaximal(es: seq<Entry>, p: Policy)
    requires Taken(es, p) < |es|
    requires TailCost(es, p, Taken(es, p)) < p.limit
    ensures || Duplicate(es, |es| - 1 - Taken(es, p), p)
            || TailCost(es, p, Taken(es, p)) + Cost(es[|es| - 1 - Taken(es, p)], p) > p.limit
  {
    TakenIsFirstHalt(es, p);
  }

  /** Nothing is taken (and the reset message is returned) exactly when the history is empty or
      its newest message alone exceeds the budget. */
  lemma ResetExactlyWhenNewestDoesNotFit(es: seq<Entry>, p: Policy)
    requires p.limit > 0
    ensures Taken(es, p) == 0 <==> (|es| == 0 || Cost(es[|es| - 1], p) > p.limit)
  {
    TakenIsFirstHalt(es, p);
    if |es| > 0 {
    }
  }

  /** For plain chat turns (no function calls), de-duplication is by reference only: a message
      stops the scan exactly when the same object was already taken. */
  lemma PlainHistoryDuplicatesAreAliases(es: seq<Entry>, p: Policy, j: nat)
    requires j < |es|
    requires forall t :: 0 <= t < |es| ==> es[t].data.functionCall.None?
    ensures Duplicate(es, j, p) <==> es[j].msg in Msgs(es[j + 1..])
  {
    if es[j].msg in Msgs(es[j + 1..]) {
      var x :| 0 <= x < |es[j + 1..]| && Msgs(es[j + 1..])[x] == es[j].msg;
      assert SnapshotEquals(es[j + 1 + x].msg, Settled(es[j + 1 + x].data, p), es[j].msg, es[j].data, p.fcEquals);
    }
  }

  /** The history's slots as they stand after the scan. */
  function AfterScan(es: seq<Entry>, p: Policy): (after: seq<Entry>)
    ensures |after| == |es|
    ensures forall i :: 0 <= i < |es| ==> after[i] == Entry(es[i].msg, DataAfterScan(es, p, i))
  {
    seq(|es|, i requires 0 <= i < |es| => Entry(es[i].msg, DataAfterScan(es, p, i)))
  }

  /** The newest `n` slots of `a` and `b` hold the same entries. */
  ghost predicate SameNewest(a: seq<Entry>, b: seq<Entry>, n: nat)
  {
    n <= |a| && n <= |b| && forall t :: |a| - n <= t < |a| ==> a[t] == b[t - |a| + |b|]
  }

  lemma {:induction false} TailCostDependsOnTail(a: seq<Entry>, b: seq<Entry>, p: Policy, k: nat)
    requires SameNewest(a, b, k)
    ensures TailCost(a, p, k) == TailCost(b, p, k)
  {
    if k > 0 {
      assert a[|a| - k] == b[|b| - k];
      TailCostDependsOnTail(a, b, p, k - 1);
    }
  }

  /** Whether the scan stops after `j` messages depends only on the newest `j + 1` slots. */
  lemma HaltsDependsOnTail(a: seq<Entry>, b: seq<Entry>, p: Policy, j: nat)
    requires j < |a| && j < |b| && SameNewest(a, b, j + 1)
    ensures Halts(a, p, j) == Halts(b, p, j)
  {
    TailCostDependsOnTail(a, b, p, j);
    var da, db := |a| - 1 - j, |b| - 1 - j;
    assert a[da] == b[db];
    if Duplicate(a, da, p) {
      var t :| da < t < |a| && SnapshotEquals(a[t].msg, Settled(a[t].data, p), a[da].msg, a[da].data, p.fcEquals);
      assert b[t - da + db] == a[t];
    }
    if Duplicate(b, db, p) {
      var t :| db < t < |b| && SnapshotEquals(b[t].msg, Settled(b[t].data, p), b[db].msg, b[db].data, p.fcEquals);
      assert a[t - db + da] == b[t];
    }
  }

  /** Without zero-cost messages in it, the window's messages keep their fields through the scan. */
  lemma WindowSurvivesScan(es: seq<Entry>, p: Policy)
    requires p.limit >= 0
    requires WindowCostsPositive(es, p)
    ensures |AfterScan(es, p)| == |es| && SameNewest(AfterScan(es, p), es, Taken(es, p))
  {
    var k := Taken(es, p);
    var after := AfterScan(es, p);
    WindowWithinBudget(es, p);
    forall t | |es| - k <= t < |es|
      ensures after[t] == es[t]
    {
      WindowSlotKeepsData(es, p, t);
    }
    assert SameNewest(after, es, k);
  }

  /** A taken message whose token count is neither zero nor over the budget keeps its fields. */
  lemma WindowSlotKeepsData(es: seq<Entry>, p: Policy, t: nat)
    requires |es| - Taken(es, p) <= t < |es|
    requires 0 < Cost(es[t], p) <= p.limit
    ensures DataAfterScan(es, p, t) == es[t].data
  {
    var n := Probed(es, p);
    assert Msgs(Tail(es, n))[t - (|es| - n)] == es[t].msg;
  }

  /** No message of the window had a zero token count, so the scan overwrote none of them. */
  predicate WindowCostsPositive(es: seq<Entry>, p: Policy)
  {
    forall i :: |es| - Taken(es, p) <= i < |es| ==> Cost(es[i], p) > 0
  }

  /** Appending its own window to a history whose window slots are unchanged yields the same
      window again, and nothing beyond it is probed: the copies are taken, and the scan then meets
      the newest original message, the very object it took first. */
  lemma {:induction false} AppendedWindowIsStable(es: seq<Entry>, after: seq<Entry>, p: Policy)
    requires Taken(es, p) > 0
    requires |after| == |es| && SameNewest(after, es, Taken(es, p))
    ensures Taken(after + Tail(es, Taken(es, p)), p) == Taken(es, p)
    ensures Probed(after + Tail(es, Taken(es, p)), p) == Taken(es, p)
  {
    var k := Taken(es, p);
    var es2 := after + Tail(es, k);
    TakenIsFirstHalt(es, p);
    forall j | 0 <= j < k
      ensures !Halts(es2, p, j)
    {
      HaltsDependsOnTail(es2, es, p, j);
    }
    var d := |es2| - 1 - k;
    assert es2[d] == after[|es| - 1] == es[|es| - 1] == es2[|es2| - 1];
    assert Duplicate(es2, d, p) by {
      assert SnapshotEquals(es2[|es2| - 1].msg, Settled(es2[|es2| - 1].data, p), es2[d].msg, es2[d].data, p.fcEquals);
    }
    FirstHaltIsTaken(es2, p, k);
  }

  /** Sending a window back (as `ChatClient.SubmitAsync` does, appending every request message to
      the history) and scanning again yields the same window, provided no message in it had a
      zero token count: nothing further is overwritten. */
  lemma ReappendedWindowIsStable(es: seq<Entry>, p: Policy)
    requires p.limit >= 0
    requires Taken(es, p) > 0
    requires WindowCostsPositive(es, p)
    ensures Taken(AfterScan(es, p) + Tail(es, Taken(es, p)), p) == Taken(es, p)
    ensures Probed(AfterScan(es, p) + Tail(es, Taken(es, p)), p) == Taken(es, p)
  {
    WindowSurvivesScan(es, p);
    AppendedWindowIsStable(es, AfterScan(es, p), p);
  }

  /** The scan that follows a re-append returns the very messages of the first window. */
  lemma ReappendedScanReturnsWindow(es: seq<Entry>, p: Policy)
    requires p.limit >= 0
    requires Taken(es, p) > 0
    requires WindowCostsPositive(es, p)
    ensures var again := AfterScan(es, p) + Tail(es, Taken(es, p));
            Taken(again, p) == Taken(es, p) && Msgs(Tail(again, Taken(again, p))) == Msgs(Tail(es, Taken(es, p)))
  {
    ReappendedWindowIsStable(es, p);
    TailOfAppend(AfterScan(es, p), Tail(es, Taken(es, p)));
  }

  lemma TailOfAppend(a: seq<Entry>, t: seq<Entry>)
    ensures Tail(a + t, |t|) == t
  {
    assert forall x :: 0 <= x < |t| ==> (a + t)[|a| + x] == t[x];
  }

  /** After a scan of the history `h` (recorded in `es`) that overwrote nothing in its window,
      the history followed by that window again is recorded as `AfterScan(es)` followed by the
      window's slots. */
  lemma ResubmissionSnapshot(h: seq<Message>, window: seq<Message>, es: seq<Entry>, p: Policy)
    requires HistoryScanned(h, es, p)
    requires p.limit >= 0 && Taken(es, p) > 0 && WindowCostsPositive(es, p)
    requires window == Msgs(Tail(es, Taken(es, p)))
    ensures Snapshot(h + window) == AfterScan(es, p) + Tail(es, Taken(es, p))
  {
    WindowSurvivesScan(es, p);
    ScannedHistorySnapshot(h, es, p);
    WindowSnapshot(h, window, es, AfterScan(es, p), Taken(es, p));
    SnapshotOfAppend(h, window);
  }

  lemma ScannedHistorySnapshot(h: seq<Message>, es: seq<Entry>, p: Policy)
    requires HistoryScanned(h, es, p)
    ensures Snapshot(h) == AfterScan(es, p)
  {
    var after := AfterScan(es, p);
    forall i | 0 <= i < |h|
      ensures Snapshot(h)[i] == after[i]
    {
    }
  }

  /** The newest `k` messages of a history recorded as `after`, whose newest `k` slots are those
      of `es`, are recorded as those slots. */
  lemma WindowSnapshot(h: seq<Message>, window: seq<Message>, es: seq<Entry>, after: seq<Entry>, k: nat)
    requires Snapshot(h) == after && |after| == |es| && SameNewest(after, es, k)
    requires window == Msgs(Tail(es, k))
    ensures Snapshot(window) == Tail(es, k)
  {
    forall x | 0 <= x < k
      ensures Snapshot(window)[x] == Tail(es, k)[x]
    {
      var j := |es| - k + x;
      assert window[x] == es[j].msg;
      SameNewestAt(after, es, k, j);
      assert Snapshot(h)[j] == es[j];
    }
  }

  lemma SnapshotOfAppend(a: seq<Message>, b: seq<Message>)
    ensures Snapshot(a + b) == Snapshot(a) + Snapshot(b)
  {
    forall i | 0 <= i < |a| + |b|
      ensures Snapshot(a + b)[i] == (Snapshot(a) + Snapshot(b))[i]
    {
      if i < |a| {
        assert (a + b)[i] == a[i];
      } else {
        assert (a + b)[i] == b[i - |a|];
      }
    }
  }

  lemma SameNewestAt(a: seq<Entry>, b: seq<Entry>, n: nat, t: int)
    requires SameNewest(a, b, n) && |a| == |b| && |a| - n <= t < |a|
    ensures a[t] == b[t]
  {
  }

  /** Sending a window back to the context that produced it (no message of it having a zero token
      count) yields that same window again. */
  lemma WindowIsResent(h: seq<Message>, window: seq<Message>, es: seq<Entry>, p: Policy)
    requires HistoryScanned(h, es, p)
    requires p.limit >= 0 && Taken(es, p) > 0 && WindowCostsPositive(es, p)
    requires window == Msgs(Tail(es, Taken(es, p)))
    ensures Taken(Snapshot(h + window), p) == Taken(es, p)
    ensures Msgs(Tail(Snapshot(h + window), Taken(es, p))) == window
  {
    ResubmissionSnapshot(h, window, es, p);
    ReappendedScanReturnsWindow(es, p);
  }

  /** The history as a second scan meets it once the window a first scan of `es` returned has
      been appended to it again: the slots as the first scan left them, then the window, which is
      either the newest of those slots or the reset message with its notice. */
  ghost function Resubmitted(es: seq<Entry>, p: Policy, window: seq<Message>): seq<Entry>
    requires Taken(es, p) == 0 ==> |window| == 1
  {
    var after := AfterScan(es, p);
    after + if Taken(es, p) == 0 then [Entry(window[0], ResetData)] else Tail(after, Taken(es, p))
  }

  /** Appending the window `GetSafeContext` returned to the history it scanned gives the history
      that `Resubmitted` describes. */
  lemma ResubmittedSnapshot(h: seq<Message>, window: seq<Message>, es: seq<Entry>, p: Policy)
    requires HistoryScanned(h, es, p)
    requires IsSafeContext(window, es, p)
    ensures Snapshot(h + window) == Resubmitted(es, p, window)
  {
    ScannedHistorySnapshot(h, es, p);
    SnapshotOfAppend(h, window);
    if Taken(es, p) > 0 {
      NewestSnapshot(h, window, es, AfterScan(es, p), Taken(es, p));
    } else {
      assert Snapshot(window) == [Entry(window[0], ResetData)];
    }
  }

  /** The newest `k` messages of a history recorded as `after` are recorded as its newest `k` slots. */
  lemma NewestSnapshot(h: seq<Message>, window: seq<Message>, es: seq<Entry>, after: seq<Entry>, k: nat)
    requires Snapshot(h) == after && |h| == |es| && k <= |es|
    requires forall i :: 0 <= i < |h| ==> h[i] == es[i].msg
    requires window == Msgs(Tail(es, k))
    ensures Snapshot(window) == Tail(after, k)
  {
    forall x | 0 <= x < k
      ensures Snapshot(window)[x] == Tail(after, k)[x]
    {
      var j := |h| - k + x;
      assert window[x] == h[j];
    }
  }

  /** Part way through a scan of `h` (recorded in `es`): `window` holds the newest messages, with
      `tokenCount` tokens between them, and the scan has met no reason to stop before them. */
  ghost predicate WindowOf(h: seq<Message>, es: seq<Entry>, p: Policy, window: seq<Message>, tokenCount: int)
  {
    && |h| == |es| && (forall i :: 0 <= i < |h| ==> h[i] == es[i].msg)
    && |window| <= |h|
    && (forall x :: 0 <= x < |window| ==> window[x] == h[|h| - |window| + x])
    && tokenCount == TailCost(es, p, |window|)
    && |window| <= Taken(es, p)
  }

  /** Each slot of `h` holds its recorded fields, settled if its message is among `settled`. */
  ghost predicate Settles(h: seq<Message>, es: seq<Entry>, p: Policy, settled: seq<Message>)
    reads h
  {
    |h| == |es| && forall i :: 0 <= i < |h| ==>
      h[i].Data() == if h[i] in settled then Settled(es[i].data, p) else es[i].data
  }

  /** A run of the newest slots of `h` is the messages of the same slots of `es`. */
  lemma NewestMessages(h: seq<Message>, es: seq<Entry>, run: seq<Message>)
    requires |h| == |es| && (forall i :: 0 <= i < |h| ==> h[i] == es[i].msg)
    requires |run| <= |h| && forall x :: 0 <= x < |run| ==> run[x] == h[|h| - |run| + x]
    ensures run == Msgs(Tail(es, |run|))
  {
    var msgs := Msgs(Tail(es, |run|));
    forall x | 0 <= x < |run|
      ensures run[x] == msgs[x]
    {
      assert Tail(es, |run|)[x] == es[|es| - |run| + x];
    }
  }

  /** Part way through a scan, the window holds the newest slots' messages with their settled
      fields, and the next older slot's message is as recorded unless it is already in the window. */
  lemma SettledWindow(h: seq<Message>, es: seq<Entry>, p: Policy, window: seq<Message>, tokenCount: int)
    requires WindowOf(h, es, p, window, tokenCount) && Settles(h, es, p, window) && |window| < |h|
    ensures forall x :: 0 <= x < |window| ==>
              window[x] == es[|es| - |window| + x].msg && window[x].Data() == Settled(es[|es| - |window| + x].data, p)
    ensures h[|h| - 1 - |window|] == es[|es| - 1 - |window|].msg
    ensures h[|h| - 1 - |window|] !in window ==> h[|h| - 1 - |window|].Data() == es[|es| - 1 - |window|].data
  {
    forall x | 0 <= x < |window|
      ensures window[x] == es[|es| - |window| + x].msg
      ensures window[x].Data() == Settled(es[|es| - |window| + x].data, p)
    {
      assert window[x] == h[|h| - |window| + x];
    }
  }

  /** Some message of the window says it equals `m`, the next older slot's message, exactly when
      that slot is a `Duplicate`. */
  lemma RepeatIsDuplicate(es: seq<Entry>, p: Policy, window: seq<Message>, m: Message)
    requires |window| < |es|
    requires forall x :: 0 <= x < |window| ==>
               window[x] == es[|es| - |window| + x].msg && window[x].Data() == Settled(es[|es| - |window| + x].data, p)
    requires m == es[|es| - 1 - |window|].msg
    requires m !in window ==> m.Data() == es[|es| - 1 - |window|].data
    ensures (exists x :: 0 <= x < |window| && window[x].Equals(m, p.fcEquals)) <==> Duplicate(es, |es| - 1 - |window|, p)
  {
    var index := |es| - 1 - |window|;
    if m in window {
      var x :| 0 <= x < |window| && window[x] == m;
      assert window[x].Equals(m, p.fcEquals);
      assert SnapshotEquals(es[index + 1 + x].msg, Settled(es[index + 1 + x].data, p), m, es[index].data, p.fcEquals);
    } else {
      if exists x :: 0 <= x < |window| && window[x].Equals(m, p.fcEquals) {
        var x :| 0 <= x < |window| && window[x].Equals(m, p.fcEquals);
        assert es[index + 1 + x].msg == window[x];
        assert SnapshotEquals(es[index + 1 + x].msg, Settled(es[index + 1 + x].data, p), m, es[index].data, p.fcEquals);
      }
      if Duplicate(es, index, p) {
        var t :| index < t < |es| && SnapshotEquals(es[t].msg, Settled(es[t].data, p), m, es[index].data, p.fcEquals);
        assert window[t - index - 1] == es[t].msg;
        assert window[t - index - 1].Equals(m, p.fcEquals);
      }
    }
  }

  /** Taking the next older message keeps the window a window. */
  lemma TakeNext(h: seq<Message>, es: seq<Entry>, p: Policy, window: seq<Message>, tokenCount: int)
    requires WindowOf(h, es, p, window, tokenCount) && |window| < |h|
    requires tokenCount < p.limit && !Duplicate(es, |h| - 1 - |window|, p)
    requires tokenCount + Cost(es[|h| - 1 - |window|], p) <= p.limit
    ensures WindowOf(h, es, p, [h[|h| - 1 - |window|]] + window, tokenCount + Cost(es[|h| - 1 - |window|], p))
  {
    ScanTakesNext(es, p, |window|);
    var next := [h[|h| - 1 - |window|]] + window;
    forall x | 0 <= x < |next|
      ensures next[x] == h[|h| - |next| + x]
    {
      if x > 0 {
        assert next[x] == window[x - 1];
      }
    }
  }

  // ---------------------------------------------------------------------------------------------
  // The context object

  class ChatContext {
    /** The token budget, fixed at construction from the model id. */
    const upperTokenLimit: int
    /** The token count of a message's serialized fields (the `cl100k_base` encoding of its JSON). */
    const tokens: MessageData -> nat
    /** `FunctionCall.Equals`, used by `Message.Equals`. */
    const fcEquals: FunctionCallEquality
    /** The message history, oldest first. */
    var history: seq<Message>

    constructor (model: string, tokens: MessageData -> nat, fcEquals: FunctionCallEquality)
      ensures upperTokenLimit == GetContextLimit(model)
      ensures this.tokens == tokens && this.fcEquals == fcEquals
      ensures history == []
    {
      upperTokenLimit := GetContextLimit(model);
      this.tokens := tokens;
      this.fcEquals := fcEquals;
      history := [];
    }

    function Budget(): Policy
    {
      Policy(upperTokenLimit, tokens, fcEquals)
    }

    /** `AppendMessage`: a null message is ignored; any other goes at the end of the history. */
    method AppendMessage(message: Message?)
      modifies this
      ensures message == null ==> history == old(history)
      ensures message != null ==> history == old(history) + [message]
    {
      if message == null {
        return;
      }
      history := history + [message];
    }

    /** `DumpContext`: the history's messages, every message ever appended in append order,
        including those no window takes any more. */
    function DumpContext(): (messages: seq<Message>)
      reads this
      ensures messages == history
    {
      history
    }

    /** `MessageExists`: some message of `context` says it equals `message`. The same object is
        always found. */
    predicate MessageExists(context: seq<Message>, message: Message)
      reads context, message
      ensures message in context ==> MessageExists(context, message)
    {
      exists i :: 0 <= i < |context| && context[i].Equals(message, fcEquals)
    }

    /** `HandleEmptyContext`: an empty window becomes one new system message announcing the reset. */
    static method HandleEmptyContext(context: seq<Message>) returns (result: seq<Message>)
      ensures context != [] ==> result == context
      ensures context == [] ==> |result| == 1 && fresh(result[0]) && IsResetMessage(result[0])
    {
      result := context;
      if |context| == 0 {
        var reset := new Message(Some(SystemRole), Some(ResetNotice), None, None);
        result := [reset];
      }
    }

    /** In the middle of a scan, `MessageExists` on the next older message is exactly the
        specification's `Duplicate`. */
    lemma ExistsIsDuplicate(h: seq<Message>, es: seq<Entry>, window: seq<Message>, tokenCount: int)
      requires WindowOf(h, es, Budget(), window, tokenCount) && Settles(h, es, Budget(), window)
      requires |window| < |h|
      ensures MessageExists(window, h[|h| - 1 - |window|]) <==> Duplicate(es, |h| - 1 - |window|, Budget())
    {
      SettledWindow(h, es, Budget(), window, tokenCount);
      RepeatIsDuplicate(es, Budget(), window, h[|h| - 1 - |window|]);
    }

    /** Once the scan is over, having taken `window` and probed `probed` (`window`, or the
        overflowing message followed by `window`): the window and the history are as specified. */
    lemma ScanEnds(h: seq<Message>, es: seq<Entry>, p: Policy, window: seq<Message>, tokenCount: int,
                   probed: seq<Message>)
      requires WindowOf(h, es, p, window, tokenCount) && Settles(h, es, p, probed)
      requires |window| == Taken(es, p) && |probed| == Probed(es, p) <= |h|
      requires probed == window || (|window| < |h| && probed == [h[|h| - 1 - |window|]] + window)
      ensures window == Msgs(Tail(es, Taken(es, p)))
      ensures HistoryScanned(h, es, p)
    {
      forall x | 0 <= x < |probed|
        ensures probed[x] == h[|h| - |probed| + x]
      {
        if probed != window && x > 0 {
          assert probed[x] == window[x - 1];
        }
      }
      NewestMessages(h, es, probed);
      NewestMessages(h, es, window);
    }

    /** `GetSafeContext`: the window for the history as it stands, computed by the backward scan,
        which overwrites in place the content of the zero-cost and oversized messages it meets. The
        history itself (its length and order) is unchanged. */
    method GetSafeContext() returns (context: seq<Message>)
      modifies history
      ensures IsSafeContext(context, old(Snapshot(history)), Budget())
      ensures Taken(old(Snapshot(history)), Budget()) == 0 ==> fresh(context[0])
      ensures HistoryScanned(history, old(Snapshot(history)), Budget())
    {
      var window := ScanHistory(Snapshot(history));
      context := HandleEmptyContext(window);
    }

    /** One message's token count; a message with none, or with more than the whole budget, has
        its content overwritten. */
    method Probe(message: Message) returns (messageLength: nat)
      modifies message
      ensures messageLength == tokens(old(message.Data()))
      ensures message.Data() == Settled(old(message.Data()), Budget())
    {
      messageLength := tokens(message.Data());
      if messageLength == 0 || messageLength > upperTokenLimit {
        message.content := Some(TruncatedContent);
      }
    }

    /** The backward scan of `GetSafeContext` over the history `h`, recorded beforehand in `es`:
        the window it builds, and the fields it leaves the history's messages. */
    method ScanHistory(ghost es: seq<Entry>) returns (window: seq<Message>)
      requires es == Snapshot(history)
      modifies history
      ensures window == Msgs(Tail(es, Taken(es, Budget())))
      ensures HistoryScanned(history, es, Budget())
    {
      ghost var p := Budget();
      var h := history;
      window := [];
      var tokenCount := 0;
      var index := |h| - 1;
      var stop := false;
      while tokenCount < upperTokenLimit && index >= 0
        invariant index == |h| - 1 - |window|
        invariant WindowOf(h, es, p, window, tokenCount) && Settles(h, es, p, window)
        decreases index
      {
        stop, window, tokenCount := ScanStep(es, h, window, tokenCount);
        if stop {
          break;
        }
        index := index - 1;
      }
      if !stop {
        ScanEndsAt(es, p, |window|);
        ScanEnds(h, es, p, window, tokenCount, window);
      }
    }

    /** One turn of the scan: the next older message stops it if it repeats a taken one or
        overflows the budget; otherwise it goes at the front of the window and its token count
        is added. A message whose token count is computed and is zero or over the budget has its
        content overwritten. */
    method ScanStep(ghost es: seq<Entry>, h: seq<Message>, window: seq<Message>, tokenCount: int)
      returns (stop: bool, next: seq<Message>, nextCount: int)
      requires WindowOf(h, es, Budget(), window, tokenCount) && Settles(h, es, Budget(), window)
      requires |window| < |h| && tokenCount < upperTokenLimit
      modifies h[|h| - 1 - |window|]
      ensures stop ==> && next == window == Msgs(Tail(es, Taken(es, Budget())))
                       && HistoryScanned(h, es, Budget())
      ensures !stop ==> && |next| == |window| + 1
                        && WindowOf(h, es, Budget(), next, nextCount) && Settles(h, es, Budget(), next)
    {
      ghost var p := Budget();
      var index := |h| - 1 - |window|;
      var message := h[index];
      ExistsIsDuplicate(h, es, window, tokenCount);
      if MessageExists(window, message) {
        ScanEndsOnRepeat(es, p, |window|);
        ScanEnds(h, es, p, window, tokenCount, window);
        return true, window, tokenCount;
      }
      var messageLength := Probe(message);
      next := [message] + window;
      forall i | 0 <= i < |h|
        ensures h[i].Data() == if h[i] in next then Settled(es[i].data, p) else es[i].data
      {
        if h[i] == message {
          assert old(h[i].Data()) == old(h[index].Data());
        } else {
          assert h[i] in next <==> h[i] in window;
        }
      }
      if tokenCount + messageLength > upperTokenLimit {
        ScanEndsOnOverflow(es, p, |window|);
        ScanEnds(h, es, p, window, tokenCount, next);
        return true, window, tokenCount;
      }
      TakeNext(h, es, p, window, tokenCount);
      nextCount := tokenCount + messageLength;
      stop := false;
    }
  }
}
