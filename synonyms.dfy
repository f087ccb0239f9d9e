/** `get_synonyms`: up to five requests with exponential back-off, then the
    synonyms and their examples read off the page that answered. The
    network is a function from the attempt number to what that request
    gave; the page is given as the nodes the parser finds. */
module Synonyms {
  import opened Wrappers
  import opened Text

  const MaxAttempts: nat := 5
  const Ok := 200
  const Forbidden := 403

  /** A `defpara` span: its `eb` span text, if any, and its `unx` span texts. */
  datatype DefPara = DefPara(eb: Option<string>, unx: seq<string>)

  /** The parsed page: the `defpara` spans of its `body` span, `None` when it has none. */
  datatype Page = Page(body: Option<seq<DefPara>>)

  /** What one request gives: a response, or a `RequestException`. */
  datatype Attempt = Response(status: int, page: Page) | RequestFailed

  datatype SynonymEntry = SynonymEntry(synonym: string, examples: seq<string>)

  /** The end of the retry loop: the page of the response that answered 200
      (`None` when the loop ran out), how many requests were made, and the
      base back-off of each sleep, in seconds, in order. */
  datatype RetryResult = RetryResult(page: Option<Page>, requests: nat, waits: seq<nat>)

  function Pow2(k: nat): nat {
    if k == 0 then 1 else 2 * Pow2(k - 1)
  }

  /** A 403 or a failed request is followed by a sleep; a 200 ends the loop;
      any other status is retried at once. */
  predicate BacksOff(a: Attempt) {
    a.RequestFailed? || a.status == Forbidden
  }

  predicate Answered(a: Attempt) {
    a.Response? && a.status == Ok
  }

  /** The retry loop from attempt `k` on. */
  function RetryFrom(net: nat -> Attempt, k: nat): RetryResult
    decreases MaxAttempts - k
  {
    if k >= MaxAttempts then RetryResult(None, 0, [])
    else if Answered(net(k)) then RetryResult(Some(net(k).page), 1, [])
    else
      var rest := RetryFrom(net, k + 1);
      RetryResult(rest.page, rest.requests + 1, (if BacksOff(net(k)) then [Pow2(k)] else []) + rest.waits)
  }

  /** The `for attempt in range(5)` loop with its `break` and `else`. */
  method FetchWithRetry(net: nat -> Attempt) returns (r: RetryResult)
    ensures r == RetryFrom(net, 0)
  {
    var waits: seq<nat> := [];
    var attempt: nat := 0;
    while attempt < MaxAttempts
      invariant attempt <= MaxAttempts
      invariant RetryFrom(net, 0).page == RetryFrom(net, attempt).page
      invariant RetryFrom(net, 0).requests == attempt + RetryFrom(net, attempt).requests
      invariant RetryFrom(net, 0).waits == waits + RetryFrom(net, attempt).waits
    {
      var response := net(attempt);
      ghost var rest := RetryFrom(net, attempt + 1);
      if response.Response? && response.status == Ok {
        return RetryResult(Some(response.page), attempt + 1, waits);
      }
      ghost var step := if BacksOff(response) then [Pow2(attempt)] else [];
      assert RetryFrom(net, attempt).waits == step + rest.waits;
      ghost var prev := waits;
      if response.Response? && response.status == Forbidden {
        waits := waits + [Pow2(attempt)];
      } else if response.RequestFailed? {
        waits := waits + [Pow2(attempt)];
      }
      assert waits == prev + step;
      Regroup(prev, step, rest.waits);
      attempt := attempt + 1;
    }
    assert waits + [] == waits;
    return RetryResult(None, MaxAttempts, waits);
  }

  lemma Regroup(a: seq<nat>, b: seq<nat>, c: seq<nat>)
    ensures a + (b + c) == a + b + c
  {
  }

  /** The base sleeps of attempts `0 .. n - 1`, in order. */
  function Waits(net: nat -> Attempt, n: nat): seq<nat> {
    if n == 0 then [] else Waits(net, n - 1) + (if BacksOff(net(n - 1)) then [Pow2(n - 1)] else [])
  }

  /** The base sleeps of attempts `k .. n - 1`, in order. */
  function WaitsBetween(net: nat -> Attempt, k: nat, n: nat): seq<nat>
    requires k <= n
    decreases n - k
  {
    if k == n then [] else (if BacksOff(net(k)) then [Pow2(k)] else []) + WaitsBetween(net, k + 1, n)
  }

  lemma {:induction false} WaitsBetweenExtend(net: nat -> Attempt, k: nat, n: nat)
    requires k <= n
    ensures WaitsBetween(net, k, n + 1) == WaitsBetween(net, k, n) + (if BacksOff(net(n)) then [Pow2(n)] else [])
    decreases n - k
  {
    if k < n {
      WaitsBetweenExtend(net, k + 1, n);
    }
  }

  lemma {:induction false} WaitsFromZero(net: nat -> Attempt, n: nat)
    ensures WaitsBetween(net, 0, n) == Waits(net, n)
    decreases n
  {
    if n > 0 {
      WaitsFromZero(net, n - 1);
      WaitsBetweenExtend(net, 0, n - 1);
    }
  }

  /** From attempt `k` on, at most `5 - k` requests are made, all of them
      when none answers 200. */
  lemma {:induction false} RetryRequests(net: nat -> Attempt, k: nat)
    requires k <= MaxAttempts
    ensures RetryFrom(net, k).requests <= MaxAttempts - k
    ensures RetryFrom(net, k).page.None? ==> RetryFrom(net, k).requests == MaxAttempts - k
    ensures RetryFrom(net, k).waits == WaitsBetween(net, k, k + RetryFrom(net, k).requests)
    decreases MaxAttempts - k
  {
    if k < MaxAttempts && !Answered(net(k)) {
      RetryRequests(net, k + 1);
    }
  }

  /** From attempt `k` on, a page is returned exactly when some attempt
      answers 200. */
  lemma {:induction false} RetryAnswer(net: nat -> Attempt, k: nat)
    requires k <= MaxAttempts
    ensures RetryFrom(net, k).page.Some? <==> exists j | k <= j < MaxAttempts :: Answered(net(j))
    decreases MaxAttempts - k
  {
    if k < MaxAttempts && !Answered(net(k)) {
      RetryAnswer(net, k + 1);
    }
  }

  /** From attempt `k` on, a returned page is that of the first attempt
      answering 200, and it is the last request made. */
  lemma {:induction false} RetryFirstAnswer(net: nat -> Attempt, k: nat)
    requires k <= MaxAttempts
    ensures RetryFrom(net, k).page.Some? ==>
      && RetryFrom(net, k).requests >= 1
      && k + RetryFrom(net, k).requests - 1 < MaxAttempts
      && Answered(net(k + RetryFrom(net, k).requests - 1))
      && RetryFrom(net, k).page == Some(net(k + RetryFrom(net, k).requests - 1).page)
      && forall j | k <= j < k + RetryFrom(net, k).requests - 1 :: !Answered(net(j))
    decreases MaxAttempts - k
  {
    if k < MaxAttempts && !Answered(net(k)) {
      RetryFirstAnswer(net, k + 1);
    }
  }

  /** The whole loop: at most five requests; it stops at the first 200; it
      gives up exactly when none of the five answers 200; and the sleeps
      are 2^k seconds (plus jitter) after each 403 or failed attempt k. */
  lemma RetryFacts(net: nat -> Attempt)
    ensures FetchResult(net).requests <= MaxAttempts
    ensures FetchResult(net).page.None? <==> forall j | 0 <= j < MaxAttempts :: !Answered(net(j))
    ensures FetchResult(net).page.None? ==> FetchResult(net).requests == MaxAttempts
    ensures FetchResult(net).page.Some? ==>
      && FetchResult(net).requests >= 1
      && Answered(net(FetchResult(net).requests - 1))
      && FetchResult(net).page == Some(net(FetchResult(net).requests - 1).page)
      && forall j | 0 <= j < FetchResult(net).requests - 1 :: !Answered(net(j))
    ensures FetchResult(net).waits == Waits(net, FetchResult(net).requests)
  {
    RetryRequests(net, 0);
    RetryAnswer(net, 0);
    RetryFirstAnswer(net, 0);
    WaitsFromZero(net, RetryFrom(net, 0).requests);
  }

  function FetchResult(net: nat -> Attempt): RetryResult {
    RetryFrom(net, 0)
  }

  // ---------------------------------------------------------------------------
  // Reading the page.

  /** `[ex.text.strip() for ex in ...]` */
  function ExamplesOf(unx: seq<string>): seq<string> {
    seq(|unx|, i requires 0 <= i < |unx| => Strip(unx[i]))
  }

  /** The entries of the page; raises when the page has no body span or a
      `defpara` has no `eb` span. */
  function EntriesOf(paras: seq<DefPara>): Outcome<seq<SynonymEntry>> {
    if paras == [] then Returned([])
    else
      var last := paras[|paras| - 1];
      match EntriesOf(paras[..|paras| - 1])
      case Raised => Raised
      case Returned(entries) =>
        if last.eb.None? then Raised
        else Returned(entries + [SynonymEntry(Strip(last.eb.value), ExamplesOf(last.unx))])
  }

  function SynonymsOf(page: Page): Outcome<seq<SynonymEntry>> {
    if page.body.None? then Raised else EntriesOf(page.body.value)
  }

  /** `get_synonyms` as a whole: raises when the retries run out, then reads the page. */
  function GetSynonymsSpec(net: nat -> Attempt): Outcome<seq<SynonymEntry>> {
    var fetched := FetchResult(net);
    if fetched.page.None? then Raised else SynonymsOf(fetched.page.value)
  }

  lemma {:induction false} EntriesStayRaised(paras: seq<DefPara>, k: nat)
    requires k <= |paras| && EntriesOf(paras[..k]).Raised?
    ensures EntriesOf(paras).Raised?
    decreases |paras| - k
  {
    if k < |paras| {
      assert paras[..k + 1][..k] == paras[..k];
      EntriesStayRaised(paras, k + 1);
    } else {
      assert paras[..k] == paras;
    }
  }

  /** The `defpara` loop. */
  method ReadSynonyms(page: Page) returns (r: Outcome<seq<SynonymEntry>>)
    ensures r == SynonymsOf(page)
  {
    if page.body.None? {
      return Raised;
    }
    var paras := page.body.value;
    var synonymsWithExamples: seq<SynonymEntry> := [];
    for k := 0 to |paras|
      invariant EntriesOf(paras[..k]) == Returned(synonymsWithExamples)
    {
      assert paras[..k + 1][..k] == paras[..k];
      var defpara := paras[k];
      if defpara.eb.None? {
        EntriesStayRaised(paras, k + 1);
        return Raised;
      }
      var synonym := Strip(defpara.eb.value);
      var examples := ExamplesOf(defpara.unx);
      synonymsWithExamples := synonymsWithExamples + [SynonymEntry(synonym, examples)];
    }
    assert paras[..|paras|] == paras;
    return Returned(synonymsWithExamples);
  }

  /** `get_synonyms`. */
  method GetSynonyms(net: nat -> Attempt) returns (r: Outcome<seq<SynonymEntry>>)
    ensures r == GetSynonymsSpec(net)
  {
    var fetched := FetchWithRetry(net);
    if fetched.page.None? {
      return Raised;
    }
    r := ReadSynonyms(fetched.page.value);
  }

  /** The page is read exactly when every `defpara` has an `eb` span, and
      then there is one entry per `defpara`. */
  lemma {:induction false} EntriesRead(paras: seq<DefPara>)
    ensures EntriesOf(paras).Returned? <==> forall k | 0 <= k < |paras| :: paras[k].eb.Some?
    ensures EntriesOf(paras).Returned? ==> |EntriesOf(paras).value| == |paras|
    decreases |paras|
  {
    if paras != [] {
      var init := paras[..|paras| - 1];
      assert forall k | 0 <= k < |init| :: init[k] == paras[k];
      EntriesRead(init);
    }
  }

  /** Entry `k` holds the stripped `eb` text and the stripped `unx` texts of
      `defpara` `k`: the entries follow document order. */
  lemma {:induction false} EntriesInOrder(paras: seq<DefPara>)
    requires EntriesOf(paras).Returned?
    ensures |EntriesOf(paras).value| == |paras|
    ensures forall k | 0 <= k < |paras| ::
      paras[k].eb.Some? && EntriesOf(paras).value[k] == SynonymEntry(Strip(paras[k].eb.value), ExamplesOf(paras[k].unx))
    decreases |paras|
  {
    if paras != [] {
      var init := paras[..|paras| - 1];
      var last := paras[|paras| - 1];
      assert EntriesOf(init).Returned?;
      EntriesInOrder(init);
      var entries := EntriesOf(init).value;
      assert EntriesOf(paras).value == entries + [SynonymEntry(Strip(last.eb.value), ExamplesOf(last.unx))];
      forall k | 0 <= k < |paras|
        ensures paras[k].eb.Some? && EntriesOf(paras).value[k] == SynonymEntry(Strip(paras[k].eb.value), ExamplesOf(paras[k].unx))
      {
        if k < |init| {
          assert paras[k] == init[k];
        }
      }
    }
  }
}
