/** The replay-sequence resolver of `CloudCrusher` (packages/electron-app/src/lib/cloud.ts):
    it flattens a recorded action list into the list that is replayed,
    inlining the test referenced by the first RUN_AFTER_TEST browser action.

    The backend is a finite store of tests keyed by backend path and test id;
    a missing key is a failed request. The two classifiers come from
    runner-utils and are not part of this model, so they are parameters and
    nothing is assumed about them (in particular not that they partition the
    list). The source recurses without a cycle guard; here `fuel` bounds the
    nesting depth, and running out of it stands for the unbounded recursion. */
module Cloud {
  import opened Wrappers
  import opened Seqs
  import opened Actions

  /** `getBrowserActions` and `getMainActions` from runner-utils. */
  datatype Classifiers = Classifiers(browser: seq<Action> -> seq<Action>, main: seq<Action> -> seq<Action>)

  /** A backend request target: the custom backend path (`None` for the
      default backend) and the test id as it appears in the URL. */
  datatype TestKey = TestKey(backend: Option<string>, testId: string)

  /** The tests the backend holds, each an action list (`events`). */
  type TestStore = map<TestKey, seq<Action>>

  datatype ResolveError = FetchFailed(key: TestKey) | DepthExhausted

  /** `getTest`: one request, no caching; a key the backend does not hold fails. */
  function GetTest(store: TestStore, testId: string, backend: Option<string>): (r: Result<seq<Action>, ResolveError>)
    ensures r.Success? <==> TestKey(backend, testId) in store
    ensures r.Success? ==> r.value == store[TestKey(backend, testId)]
    ensures r.Failure? ==> r.error == FetchFailed(TestKey(backend, testId))
  {
    var key := TestKey(backend, testId);
    if key in store then Success(store[key]) else Failure(FetchFailed(key))
  }

  /** The id of the test a RUN_AFTER_TEST action refers to: its
      `payload.meta.value` as written into the request URL. */
  function ReferencedTestId(a: Action): (r: string)
    ensures "value" in a.meta && a.meta["value"].Str? ==> r == a.meta["value"].s
    ensures "value" in a.meta && a.meta["value"].Num? && a.meta["value"].n >= 0 ==>
              IsDecimal(r) && DecimalValue(r) == a.meta["value"].n
    ensures "value" !in a.meta ==> r == "undefined"
  {
    TemplateText(MetaField(a, "value"))
  }

  /** The resolution of `actions` (specification of `getReplayableTestActions`). */
  function Resolve(c: Classifiers, store: TestStore, actions: seq<Action>, isMainTest: bool,
                   backend: Option<string>, fuel: nat): (r: Result<seq<Action>, ResolveError>)
    ensures r.Success? ==> |if isMainTest then c.browser(actions) else []| + |c.main(actions)| <= |r.value|
    ensures FirstIndex(c.browser(actions), IsRunAfterTest).None? ==> r.Success?
    decreases fuel, 1
  {
    Expand(c, store, c.browser(actions), c.main(actions), isMainTest, backend, fuel)
  }

  /** The resolution once the list has been split into its browser and main
      actions: the browser actions when this is the main test, then the
      resolution of the test the first RUN_AFTER_TEST refers to (fetched from
      `backend`, resolved as a non-main test against the default backend),
      then the main actions. */
  function Expand(c: Classifiers, store: TestStore, browser: seq<Action>, main: seq<Action>,
                  isMainTest: bool, backend: Option<string>, fuel: nat): (r: Result<seq<Action>, ResolveError>)
    ensures FirstIndex(browser, IsRunAfterTest).None? ==> r.Success?
    ensures FirstIndex(browser, IsRunAfterTest).Some? && fuel == 0 ==> r == Failure(DepthExhausted)
    decreases fuel, 0
  {
    var head := if isMainTest then browser else [];
    match FirstIndex(browser, IsRunAfterTest)
    case None => Success(head + main)
    case Some(k) =>
      if fuel == 0 then Failure(DepthExhausted)
      else match GetTest(store, ReferencedTestId(browser[k]), backend)
        case Failure(e) => Failure(e)
        case Success(sub) =>
          match Resolve(c, store, sub, false, None, fuel - 1)
          case Failure(e) => Failure(e)
          case Success(rest) => Success(head + rest + main)
  }

  /** `getReplayableTestActions`: accumulates the replayable list in `out`. */
  method GetReplayableTestActions(c: Classifiers, store: TestStore, actions: seq<Action>, isMainTest: bool,
                                  customBackendPath: Option<string>, fuel: nat)
    returns (r: Result<seq<Action>, ResolveError>)
    ensures r == Resolve(c, store, actions, isMainTest, customBackendPath, fuel)
    decreases fuel
  {
    var out: seq<Action> := [];
    var browserActions := c.browser(actions);
    if isMainTest {
      out := out + browserActions;
    }
    assert out == if isMainTest then browserActions else [];
    var runAfterTest := FirstIndex(browserActions, IsRunAfterTest);
    if runAfterTest.Some? {
      if fuel == 0 {
        return Failure(DepthExhausted);
      }
      var fetched := GetTest(store, ReferencedTestId(browserActions[runAfterTest.value]), customBackendPath);
      if fetched.Failure? {
        return Failure(fetched.error);
      }
      var sub := GetReplayableTestActions(c, store, fetched.value, false, None, fuel - 1);
      if sub.Failure? {
        return Failure(sub.error);
      }
      out := out + sub.value;
    }
    var mainActions := c.main(actions);
    out := out + mainActions;
    return Success(out);
  }

  /** A successful resolution starts with the browser actions (main test
      only) and ends with the main actions, unchanged. */
  lemma ResolvedShape(c: Classifiers, store: TestStore, actions: seq<Action>, isMainTest: bool,
                      backend: Option<string>, fuel: nat)
    requires Resolve(c, store, actions, isMainTest, backend, fuel).Success?
    ensures var out := Resolve(c, store, actions, isMainTest, backend, fuel).value;
            var head := if isMainTest then c.browser(actions) else [];
            var main := c.main(actions);
            |head| + |main| <= |out| && out[..|head|] == head && out[|out| - |main|..] == main
  {
  }

  /** With no RUN_AFTER_TEST among the browser actions nothing is fetched:
      the result is the same for every store and every fuel. */
  lemma NoReferenceNoFetch(c: Classifiers, store: TestStore, actions: seq<Action>, isMainTest: bool,
                           backend: Option<string>, fuel: nat)
    requires forall i :: 0 <= i < |c.browser(actions)| ==> !IsRunAfterTest(c.browser(actions)[i])
    ensures Resolve(c, store, actions, isMainTest, backend, fuel)
         == Success((if isMainTest then c.browser(actions) else []) + c.main(actions))
  {
  }

  /** With a RUN_AFTER_TEST whose test is fetched and resolves, the output is
      the three parts in order and its length is the sum of theirs. */
  lemma ReferenceInlined(c: Classifiers, store: TestStore, actions: seq<Action>, isMainTest: bool,
                         backend: Option<string>, fuel: nat, k: nat, rest: seq<Action>)
    requires FirstIndex(c.browser(actions), IsRunAfterTest) == Some(k)
    requires fuel > 0
    requires TestKey(backend, ReferencedTestId(c.browser(actions)[k])) in store
    requires Resolve(c, store, store[TestKey(backend, ReferencedTestId(c.browser(actions)[k]))], false, None, fuel - 1)
          == Success(rest)
    ensures var head := if isMainTest then c.browser(actions) else [];
            var out := Resolve(c, store, actions, isMainTest, backend, fuel);
            out == Success(head + rest + c.main(actions))
            && |out.value| == |head| + |rest| + |c.main(actions)|
  {
  }

  /** A failed fetch of the referenced test fails the whole resolution. */
  lemma FetchFailureAborts(c: Classifiers, store: TestStore, actions: seq<Action>, isMainTest: bool,
                           backend: Option<string>, fuel: nat, k: nat)
    requires FirstIndex(c.browser(actions), IsRunAfterTest) == Some(k)
    requires fuel > 0
    requires TestKey(backend, ReferencedTestId(c.browser(actions)[k])) !in store
    ensures Resolve(c, store, actions, isMainTest, backend, fuel)
         == Failure(FetchFailed(TestKey(backend, ReferencedTestId(c.browser(actions)[k]))))
  {
  }

  /** A failure anywhere below the referenced test (a fetch at a deeper
      level, or the depth running out) fails the whole resolution with that
      error, with no partial list. */
  lemma SubResolutionFailureAborts(c: Classifiers, store: TestStore, actions: seq<Action>, isMainTest: bool,
                                   backend: Option<string>, fuel: nat, k: nat, e: ResolveError)
    requires FirstIndex(c.browser(actions), IsRunAfterTest) == Some(k)
    requires fuel > 0
    requires TestKey(backend, ReferencedTestId(c.browser(actions)[k])) in store
    requires Resolve(c, store, store[TestKey(backend, ReferencedTestId(c.browser(actions)[k]))], false, None, fuel - 1)
          == Failure(e)
    ensures Resolve(c, store, actions, isMainTest, backend, fuel) == Failure(e)
  {
  }

  /** The RUN_AFTER_TEST action is not removed: in a main test it stays at
      its position among the browser actions. */
  lemma RunAfterTestKeptInMainTest(c: Classifiers, store: TestStore, actions: seq<Action>,
                                   backend: Option<string>, fuel: nat, k: nat)
    requires FirstIndex(c.browser(actions), IsRunAfterTest) == Some(k)
    requires Resolve(c, store, actions, true, backend, fuel).Success?
    ensures var out := Resolve(c, store, actions, true, backend, fuel).value;
            k < |out| && out[k] == c.browser(actions)[k] && IsRunAfterTest(out[k])
  {
    ResolvedShape(c, store, actions, true, backend, fuel);
    var out := Resolve(c, store, actions, true, backend, fuel).value;
    assert out[..|c.browser(actions)|][k] == out[k];
  }

  /** Only the first RUN_AFTER_TEST is followed: whatever comes after it
      among the browser actions changes nothing in the resolution of a
      non-main test, and in a main test it only appears among the leading
      browser actions. */
  lemma {:induction false} OnlyFirstReferenceFollowed(c: Classifiers, store: TestStore,
                                                      pre: seq<Action>, ref: Action, post1: seq<Action>, post2: seq<Action>,
                                                      main: seq<Action>, backend: Option<string>, fuel: nat)
    requires forall j :: 0 <= j < |pre| ==> !IsRunAfterTest(pre[j])
    requires IsRunAfterTest(ref)
    ensures Expand(c, store, pre + [ref] + post1, main, false, backend, fuel)
         == Expand(c, store, pre + [ref] + post2, main, false, backend, fuel)
    ensures var r := Expand(c, store, pre + [ref] + post1, main, true, backend, fuel);
            var s := Expand(c, store, pre + [ref] + post2, main, false, backend, fuel);
            (r.Success? <==> s.Success?)
            && (r.Success? ==> r.value == pre + [ref] + post1 + s.value)
  {
    FirstIndexAfterPrefix(pre, ref, post1, IsRunAfterTest);
    FirstIndexAfterPrefix(pre, ref, post2, IsRunAfterTest);
    var b1 := pre + [ref] + post1;
    var b2 := pre + [ref] + post2;
    assert b1[|pre|] == ref && b2[|pre|] == ref;
    if fuel > 0 {
      var key := TestKey(backend, ReferencedTestId(ref));
      if key in store {
        var sub := Resolve(c, store, store[key], false, None, fuel - 1);
        if sub.Success? {
          assert Expand(c, store, b1, main, true, backend, fuel) == Success(b1 + sub.value + main);
          assert b1 + sub.value + main == pre + [ref] + post1 + (sub.value + main);
        }
      }
    }
  }

  /** Two stores that hold the same tests on the default backend, and the
      same test under the first-level key, resolve alike: only the
      first-level fetch uses the custom backend path, deeper fetches use
      the default one. */
  lemma {:induction false} DeeperFetchesUseDefaultBackend(c: Classifiers, s1: TestStore, s2: TestStore,
                                                          actions: seq<Action>, isMainTest: bool,
                                                          backend: Option<string>, fuel: nat)
    requires forall id :: TestKey(None, id) in s1 <==> TestKey(None, id) in s2
    requires forall id :: TestKey(None, id) in s1 ==> s1[TestKey(None, id)] == s2[TestKey(None, id)]
    requires forall k :: FirstIndex(c.browser(actions), IsRunAfterTest) == Some(k) ==>
               var key := TestKey(backend, ReferencedTestId(c.browser(actions)[k]));
               (key in s1 <==> key in s2) && (key in s1 ==> s1[key] == s2[key])
    ensures Resolve(c, s1, actions, isMainTest, backend, fuel) == Resolve(c, s2, actions, isMainTest, backend, fuel)
    decreases fuel
  {
    var browser := c.browser(actions);
    match FirstIndex(browser, IsRunAfterTest)
    case None =>
    case Some(k) =>
      if fuel > 0 {
        var key := TestKey(backend, ReferencedTestId(browser[k]));
        if key in s1 {
          DeeperFetchesUseDefaultBackend(c, s1, s2, s1[key], false, None, fuel - 1);
        }
      }
  }

  /** More fuel never changes a resolution that succeeded: the fuel only
      cuts off recursion that the source would not stop. */
  lemma {:induction false} FuelMonotone(c: Classifiers, store: TestStore, actions: seq<Action>, isMainTest: bool,
                                        backend: Option<string>, fuel: nat, more: nat)
    requires fuel <= more
    requires Resolve(c, store, actions, isMainTest, backend, fuel).Success?
    ensures Resolve(c, store, actions, isMainTest, backend, more) == Resolve(c, store, actions, isMainTest, backend, fuel)
    decreases fuel
  {
    var browser := c.browser(actions);
    match FirstIndex(browser, IsRunAfterTest)
    case None =>
    case Some(k) =>
      var key := TestKey(backend, ReferencedTestId(browser[k]));
      assert fuel > 0 && key in store;
      FuelMonotone(c, store, store[key], false, None, fuel - 1, more - 1);
  }

  /** There is no cycle guard: a test on the default backend whose first
      RUN_AFTER_TEST refers to itself never resolves, whatever the depth. */
  lemma {:induction false} SelfReferenceNeverResolves(c: Classifiers, store: TestStore, id: string,
                                                      isMainTest: bool, fuel: nat)
    requires TestKey(None, id) in store
    requires var browser := c.browser(store[TestKey(None, id)]);
             var first := FirstIndex(browser, IsRunAfterTest);
             first.Some? && ReferencedTestId(browser[first.value]) == id
    ensures Resolve(c, store, store[TestKey(None, id)], isMainTest, None, fuel) == Failure(DepthExhausted)
    decreases fuel
  {
    if fuel > 0 {
      SelfReferenceNeverResolves(c, store, id, false, fuel - 1);
    }
  }

  /** When the classifiers split a list into its browser actions followed by
      its main actions and none of them is a RUN_AFTER_TEST, resolving it as
      the main test gives the list back unchanged. */
  lemma FlatMainTestUnchanged(c: Classifiers, store: TestStore, actions: seq<Action>,
                              backend: Option<string>, fuel: nat)
    requires c.browser(actions) + c.main(actions) == actions
    requires forall i :: 0 <= i < |actions| ==> !IsRunAfterTest(actions[i])
    ensures Resolve(c, store, actions, true, backend, fuel) == Success(actions)
  {
    var browser := c.browser(actions);
    forall i | 0 <= i < |browser|
      ensures !IsRunAfterTest(browser[i])
    {
      assert browser[i] == actions[i];
    }
  }

  /** The `testIds` field `runTests` sends: the ids joined by commas when an
      array is given, `null` otherwise. */
  function TestIdsField(testIds: Option<seq<string>>): (r: Option<string>)
    ensures r.Some? <==> testIds.Some?
    ensures testIds == Some([]) ==> r == Some("")
    ensures testIds.Some? && |testIds.value| == 1 ==> r == Some(testIds.value[0])
    ensures testIds.Some? && testIds.value != [] ==> Split(r.value) == SplitAll(testIds.value)
    ensures testIds.Some? && testIds.value != [] && (forall i :: 0 <= i < |testIds.value| ==> ',' !in testIds.value[i])
            ==> Split(r.value) == testIds.value
  {
    match testIds
    case None => None
    case Some(ids) =>
      assert ids != [] && (forall i :: 0 <= i < |ids| ==> ',' !in ids[i]) ==> Split(Join(ids)) == ids by {
        if ids != [] && (forall i :: 0 <= i < |ids| ==> ',' !in ids[i]) {
          SplitJoin(ids);
        }
      }
      if ids == [] then Some("")
      else
        SplitJoinAll(ids);
        Some(Join(ids))
  }

  /** `Array.prototype.join(",")`. */
  function Join(ids: seq<string>): string {
    if ids == [] then ""
    else if |ids| == 1 then ids[0]
    else ids[0] + "," + Join(ids[1..])
  }

  /** `String.prototype.split(",")`, the receiver's way back to the ids. */
  function Split(s: string): (r: seq<string>)
    ensures |r| >= 1
  {
    if s == [] then [""]
    else if s[0] == ',' then [""] + Split(s[1..])
    else var rest := Split(s[1..]); [[s[0]] + rest[0]] + rest[1..]
  }

  /** The pieces of each id, one after the other. */
  function SplitAll(ids: seq<string>): seq<string> {
    if ids == [] then [] else Split(ids[0]) + SplitAll(ids[1..])
  }

  /** Splitting around a comma splits each side. */
  lemma {:induction false} SplitConcat(x: string, y: string)
    ensures Split(x + "," + y) == Split(x) + Split(y)
  {
    if x == [] {
      assert x + "," + y == "," + y;
      assert ("," + y)[1..] == y;
    } else {
      assert (x + "," + y)[1..] == x[1..] + "," + y;
      SplitConcat(x[1..], y);
    }
  }

  /** Splitting the joined ids gives the pieces of every id in order, so
      `Split` fixes the joined text for any list, commas inside ids included. */
  lemma {:induction false} SplitJoinAll(ids: seq<string>)
    requires ids != []
    ensures Split(Join(ids)) == SplitAll(ids)
  {
    if |ids| == 1 {
      assert SplitAll(ids[1..]) == [];
    } else {
      SplitConcat(ids[0], Join(ids[1..]));
      SplitJoinAll(ids[1..]);
    }
  }

  /** Splitting loses nothing: joining the pieces gives the text back, so
      two texts with the same pieces are equal. */
  lemma {:induction false} JoinSplit(s: string)
    ensures Join(Split(s)) == s
    decreases |s|
  {
    if s != [] {
      var rest := Split(s[1..]);
      JoinSplit(s[1..]);
      if s[0] == ',' {
        assert Split(s) == [""] + rest;
        assert ([""] + rest)[1..] == rest;
        assert s == [s[0]] + s[1..];
      } else {
        var pieces := [[s[0]] + rest[0]] + rest[1..];
        assert Split(s) == pieces;
        assert pieces[1..] == rest[1..];
        assert s == [s[0]] + s[1..];
      }
    }
  }

  /** Splitting a comma-free piece followed by a comma and more text gives
      the piece, then the pieces of the rest. */
  lemma {:induction false} SplitPiece(x: string, y: string)
    requires ',' !in x
    ensures Split(x + "," + y) == [x] + Split(y)
    ensures Split(x) == [x]
  {
    if x != [] {
      assert (x + "," + y)[1..] == x[1..] + "," + y;
      SplitPiece(x[1..], y);
      assert [x[0]] + x[1..] == x;
    }
  }

  /** Joining non-empty lists of comma-free ids and splitting back round-trips. */
  lemma {:induction false} SplitJoin(ids: seq<string>)
    requires ids != []
    requires forall i :: 0 <= i < |ids| ==> ',' !in ids[i]
    ensures Split(Join(ids)) == ids
  {
    if |ids| == 1 {
      SplitPiece(ids[0], "");
    } else {
      SplitPiece(ids[0], Join(ids[1..]));
      SplitJoin(ids[1..]);
    }
  }
}
