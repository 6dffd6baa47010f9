/**
 * The summary reporter (my-reporter.ts): `onTestEnd` files each finished test
 * under its describe path and counts passes, failures and skips; `onEnd`
 * renders the groups and the summary as the lines of `test-results.txt`.
 *
 * The groups object is the map `testResults` together with `order`, the
 * order its keys were first inserted in (the order `for..in` visits them).
 */
module Reporter {
  import opened Wrappers
  import opened Text

  /** `TestResult.status`. */
  datatype Status = Passed | Failed | TimedOut | Skipped | Interrupted

  /** The status as it is printed. */
  function StatusText(status: Status): string
  {
    match status
    case Passed => "passed"
    case Failed => "failed"
    case TimedOut => "timedOut"
    case Skipped => "skipped"
    case Interrupted => "interrupted"
  }

  /** `{ name, status }`; the name is `undefined` for an empty title path. */
  datatype TestEntry = TestEntry(name: Option<string>, status: Status)

  /** The separator between describe titles. */
  const Chevron := " › "

  /** `parts.slice(0, -1).join(' › ') || 'Root'`. */
  function DescribeKey(parts: seq<string>): (key: string)
    ensures key != ""
    ensures |parts| <= 1 ==> key == "Root"
  {
    var joined := if |parts| == 0 then "" else Join(parts[..|parts| - 1], Chevron);
    if joined == "" then "Root" else joined
  }

  /** `parts[parts.length - 1]`. */
  function TestName(parts: seq<string>): (name: Option<string>)
    ensures name.Some? <==> |parts| > 0
    ensures name.Some? ==> name.value == parts[|parts| - 1]
  {
    if |parts| == 0 then None else Some(parts[|parts| - 1])
  }

  /** The list filed under `key`, or none yet. */
  function Group(groups: map<string, seq<TestEntry>>, key: string): seq<TestEntry>
  {
    if key in groups then groups[key] else []
  }

  /** `testResults[key].push(entry)`, creating the list first when absent. */
  function Push(groups: map<string, seq<TestEntry>>, key: string, entry: TestEntry): map<string, seq<TestEntry>>
  {
    groups[key := Group(groups, key) + [entry]]
  }

  /** Every entry of every group, group by group in key order. */
  function Entries(order: seq<string>, groups: map<string, seq<TestEntry>>): seq<TestEntry>
  {
    if |order| == 0 then []
    else Entries(order[..|order| - 1], groups) + Group(groups, order[|order| - 1])
  }

  /** The number of entries with the given status. */
  function CountStatus(entries: seq<TestEntry>, status: Status): nat
  {
    if |entries| == 0 then 0
    else CountStatus(entries[..|entries| - 1], status) + (if entries[|entries| - 1].status == status then 1 else 0)
  }

  /** No key is listed twice. */
  predicate NoDuplicates(order: seq<string>)
  {
    |order| == 0 || (order[|order| - 1] !in order[..|order| - 1] && NoDuplicates(order[..|order| - 1]))
  }

  /** The keys in `order`. */
  function Listed(order: seq<string>): set<string>
  {
    if |order| == 0 then {} else Listed(order[..|order| - 1]) + {order[|order| - 1]}
  }

  /** The keys of `groups` are exactly the elements of `order`, each listed once. */
  predicate KeysInOrder(order: seq<string>, groups: map<string, seq<TestEntry>>)
  {
    groups.Keys == Listed(order) && NoDuplicates(order)
  }

  /**
   * Every key is listed once in `order`, no group is empty, there is one
   * entry per call, and each counter is the number of entries with its status.
   */
  ghost predicate Tallied(order: seq<string>, groups: map<string, seq<TestEntry>>, passed: nat, failed: nat, skipped: nat, calls: nat)
  {
    KeysInOrder(order, groups) &&
    [] !in groups.Values &&
    |Entries(order, groups)| == calls &&
    passed == CountStatus(Entries(order, groups), Passed) &&
    failed == CountStatus(Entries(order, groups), Failed) &&
    skipped == CountStatus(Entries(order, groups), Skipped)
  }

  // ---------------------------------------------------------------------------
  // rendering

  /** `` `  › ${tr.name} : ${tr.status}` ``. */
  function EntryLine(entry: TestEntry): string
  {
    "  › " + entry.name.GetOr("undefined") + " : " + StatusText(entry.status)
  }

  /** One line per entry, in push order. */
  function EntryLines(entries: seq<TestEntry>): (r: seq<string>)
    ensures |r| == |entries|
  {
    if |entries| == 0 then []
    else EntryLines(entries[..|entries| - 1]) + [EntryLine(entries[|entries| - 1])]
  }

  /** A group's block: its key and a colon, its entries, a blank line. */
  function Block(key: string, entries: seq<TestEntry>): seq<string>
  {
    [key + ":"] + EntryLines(entries) + [""]
  }

  /** The blocks of the groups, in key order. */
  function GroupLines(order: seq<string>, groups: map<string, seq<TestEntry>>): seq<string>
  {
    if |order| == 0 then []
    else GroupLines(order[..|order| - 1], groups) + Block(order[|order| - 1], Group(groups, order[|order| - 1]))
  }

  /** The four summary lines. */
  function SummaryLines(passed: nat, failed: nat, skipped: nat): seq<string>
  {
    ["Summary:", "Passed: " + NatToString(passed), "Failed: " + NatToString(failed), "Skipped: " + NatToString(skipped)]
  }

  /** The lines `onEnd` writes. */
  function ReportLines(order: seq<string>, groups: map<string, seq<TestEntry>>, passed: nat, failed: nat, skipped: nat): (lines: seq<string>)
    ensures |lines| >= 4 && lines[|lines| - 4..] == SummaryLines(passed, failed, skipped)
    ensures lines[|lines| - 4] == "Summary:"
  {
    GroupLines(order, groups) + SummaryLines(passed, failed, skipped)
  }

  class MyReporter {
    var testResults: map<string, seq<TestEntry>>
    var order: seq<string>
    var passed: nat
    var failed: nat
    var skipped: nat
    /** The number of `onTestEnd` calls so far. */
    ghost var calls: nat

    /** The reporter's invariant. */
    ghost predicate Valid()
      reads this
    {
      Tallied(order, testResults, passed, failed, skipped, calls)
    }

    constructor ()
      ensures Valid()
      ensures testResults == map[] && order == [] && calls == 0
      ensures passed == 0 && failed == 0 && skipped == 0
    {
      testResults := map[];
      order := [];
      passed, failed, skipped := 0, 0, 0;
      calls := 0;
    }

    /** `onTestEnd`: file the test under its describe key and count its status. */
    method OnTestEnd(parts: seq<string>, status: Status)
      requires Valid()
      modifies this
      ensures Valid()
      ensures testResults == Push(old(testResults), DescribeKey(parts), TestEntry(TestName(parts), status))
      ensures order == if DescribeKey(parts) in old(testResults) then old(order) else old(order) + [DescribeKey(parts)]
      ensures passed == old(passed) + (if status == Passed then 1 else 0)
      ensures failed == old(failed) + (if status == Failed then 1 else 0)
      ensures skipped == old(skipped) + (if status == Skipped then 1 else 0)
      ensures calls == old(calls) + 1
    {
      var describeName := DescribeKey(parts);
      var testName := TestName(parts);
      var entry := TestEntry(testName, status);
      if describeName !in testResults {
        testResults := testResults[describeName := []];
        order := order + [describeName];
      }
      testResults := testResults[describeName := testResults[describeName] + [entry]];
      if status == Passed {
        passed := passed + 1;
      } else if status == Failed {
        failed := failed + 1;
      } else if status == Skipped {
        skipped := skipped + 1;
      }
      calls := calls + 1;
      RecordKeepsTallied(old(order), old(testResults), old(passed), old(failed), old(skipped), old(calls), describeName, entry,
                         order, testResults, passed, failed, skipped, calls);
    }

    /** `onEnd`: the lines of the report, which the source then writes to `test-results.txt`. */
    method OnEnd() returns (lines: seq<string>)
      requires KeysInOrder(order, testResults)
      ensures lines == ReportLines(order, testResults, passed, failed, skipped)
    {
      ListedKeysPresent(order, testResults);
      lines := RenderGroups(order, testResults);
      lines := lines + ["Summary:"];
      lines := lines + ["Passed: " + NatToString(passed)];
      lines := lines + ["Failed: " + NatToString(failed)];
      lines := lines + ["Skipped: " + NatToString(skipped)];
    }
  }

  /** The outer loop of `onEnd`: each group's block in key order. */
  method RenderGroups(keys: seq<string>, groups: map<string, seq<TestEntry>>) returns (lines: seq<string>)
    requires forall i :: 0 <= i < |keys| ==> keys[i] in groups
    ensures lines == GroupLines(keys, groups)
  {
    lines := [];
    for i := 0 to |keys|
      invariant lines == GroupLines(keys[..i], groups)
    {
      var describe := keys[i];
      lines := lines + [describe + ":"];
      ghost var heading := lines;
      lines := PushEntryLines(lines, groups[describe]);
      lines := lines + [""];
      BlockAppended(keys, groups, i, heading, lines);
    }
    assert keys[..|keys|] == keys;
  }

  /** The inner loop of `onEnd`: one line per entry pushed after `lines`. */
  method PushEntryLines(lines: seq<string>, entries: seq<TestEntry>) returns (pushed: seq<string>)
    ensures pushed == lines + EntryLines(entries)
  {
    pushed := lines;
    for j := 0 to |entries|
      invariant pushed == lines + EntryLines(entries[..j])
    {
      assert entries[..j + 1][..j] == entries[..j];
      pushed := pushed + [EntryLine(entries[j])];
    }
    assert entries[..|entries|] == entries;
  }

  // ---------------------------------------------------------------------------
  // properties

  /** Counting distributes over concatenation. */
  lemma {:induction false} CountAppend(a: seq<TestEntry>, b: seq<TestEntry>, status: Status)
    ensures CountStatus(a + b, status) == CountStatus(a, status) + CountStatus(b, status)
    decreases |b|
  {
    if |b| == 0 {
      assert a + b == a;
    } else {
      assert (a + b)[..|a + b| - 1] == a + b[..|b| - 1];
      CountAppend(a, b[..|b| - 1], status);
    }
  }

  /** The groups of keys not in `order` do not show in its entries. */
  lemma {:induction false} EntriesIgnore(order: seq<string>, groups: map<string, seq<TestEntry>>, key: string, list: seq<TestEntry>)
    requires key !in order
    ensures Entries(order, groups[key := list]) == Entries(order, groups)
    decreases |order|
  {
    if |order| > 0 {
      EntriesIgnore(order[..|order| - 1], groups, key, list);
    }
  }

  /** Pushing onto a listed key's group adds exactly one entry, and one to the count of its status. */
  lemma {:induction false} PushListed(order: seq<string>, groups: map<string, seq<TestEntry>>, key: string, entry: TestEntry)
    requires key in order
    requires NoDuplicates(order)
    ensures |Entries(order, Push(groups, key, entry))| == |Entries(order, groups)| + 1
    ensures forall status ::
              CountStatus(Entries(order, Push(groups, key, entry)), status) ==
              CountStatus(Entries(order, groups), status) + (if entry.status == status then 1 else 0)
    decreases |order|
  {
    var init, last := order[..|order| - 1], order[|order| - 1];
    var pushed := Push(groups, key, entry);
    if last == key {
      EntriesIgnore(init, groups, key, Group(groups, key) + [entry]);
      forall status: Status
        ensures CountStatus(Entries(order, pushed), status) ==
          CountStatus(Entries(order, groups), status) + (if entry.status == status then 1 else 0)
      {
        CountAppend(Entries(init, groups), Group(groups, key) + [entry], status);
        CountAppend(Entries(init, groups), Group(groups, key), status);
        assert (Group(groups, key) + [entry])[..|Group(groups, key)|] == Group(groups, key);
      }
    } else {
      assert key in init by {
        var i :| 0 <= i < |order| && order[i] == key;
        assert i < |init| && init[i] == key;
      }
      PushListed(init, groups, key, entry);
      assert Group(pushed, last) == Group(groups, last);
      forall status: Status
        ensures CountStatus(Entries(order, pushed), status) ==
          CountStatus(Entries(order, groups), status) + (if entry.status == status then 1 else 0)
      {
        CountAppend(Entries(init, pushed), Group(groups, last), status);
        CountAppend(Entries(init, groups), Group(groups, last), status);
      }
    }
  }

  /** Pushing under a new key appends the entry after every earlier entry. */
  lemma {:induction false} PushNewKey(order: seq<string>, groups: map<string, seq<TestEntry>>, key: string, entry: TestEntry)
    requires key !in order
    ensures Entries(order + [key], Push(groups, key, entry)) == Entries(order, groups) + Group(groups, key) + [entry]
  {
    var pushed := Push(groups, key, entry);
    var order' := order + [key];
    assert order'[..|order|] == order;
    EntriesIgnore(order, groups, key, Group(groups, key) + [entry]);
    assert Group(pushed, key) == Group(groups, key) + [entry];
  }

  /** One more entry at the end adds one to the count of its status and nothing to the others. */
  lemma {:induction false} CountOneMore(before: seq<TestEntry>, entry: TestEntry)
    ensures forall status :: CountStatus(before + [entry], status) ==
                             CountStatus(before, status) + (if entry.status == status then 1 else 0)
  {
    assert (before + [entry])[..|before|] == before;
  }

  /** `Listed` holds exactly the elements of the list. */
  lemma {:induction false} ListedMembers(order: seq<string>, key: string)
    ensures key in Listed(order) <==> key in order
    decreases |order|
  {
    if |order| > 0 {
      var init := order[..|order| - 1];
      ListedMembers(init, key);
      assert order == init + [order[|order| - 1]];
    }
  }

  /** Every listed key has a group. */
  lemma {:induction false} ListedKeysPresent(order: seq<string>, groups: map<string, seq<TestEntry>>)
    requires KeysInOrder(order, groups)
    ensures forall i :: 0 <= i < |order| ==> order[i] in groups
  {
    forall i | 0 <= i < |order|
      ensures order[i] in groups
    {
      ListedMembers(order, order[i]);
    }
  }

  /** The lines after one more group are the earlier lines followed by that group's block. */
  lemma {:induction false} BlockAppended(order: seq<string>, groups: map<string, seq<TestEntry>>, i: nat, heading: seq<string>, lines: seq<string>)
    requires i < |order| && order[i] in groups
    requires heading == GroupLines(order[..i], groups) + [order[i] + ":"]
    requires lines == heading + EntryLines(groups[order[i]]) + [""]
    ensures lines == GroupLines(order[..i + 1], groups)
  {
    var prefix := order[..i + 1];
    assert prefix[..i] == order[..i] && prefix[i] == order[i];
    assert GroupLines(prefix, groups) == GroupLines(order[..i], groups) + Block(order[i], groups[order[i]]);
  }

  /** After a push, the keys are still listed once each, and no group is empty. */
  lemma {:induction false} PushKeepsKeys(order: seq<string>, groups: map<string, seq<TestEntry>>, key: string, entry: TestEntry)
    requires KeysInOrder(order, groups)
    requires [] !in groups.Values
    ensures KeysInOrder(if key in groups then order else order + [key], Push(groups, key, entry))
    ensures [] !in Push(groups, key, entry).Values
  {
    var pushed := Push(groups, key, entry);
    if key !in groups {
      var order' := order + [key];
      assert order'[..|order|] == order;
      ListedMembers(order, key);
      assert pushed.Keys == groups.Keys + {key};
    } else {
      assert pushed.Keys == groups.Keys;
    }
    forall k | k in pushed
      ensures pushed[k] != []
    {
      if k != key {
        assert groups[k] in groups.Values;
      }
    }
  }

  /** What `onTestEnd` does to the tally: one more entry, one more of its status, keys still listed once each. */
  lemma {:induction false} PushKeepsTally(order: seq<string>, groups: map<string, seq<TestEntry>>, key: string, entry: TestEntry,
                                          order': seq<string>, groups': map<string, seq<TestEntry>>)
    requires KeysInOrder(order, groups)
    requires [] !in groups.Values
    requires order' == if key in groups then order else order + [key]
    requires groups' == Push(groups, key, entry)
    ensures KeysInOrder(order', groups')
    ensures [] !in groups'.Values
    ensures |Entries(order', groups')| == |Entries(order, groups)| + 1
    ensures forall status :: CountStatus(Entries(order', groups'), status) ==
                             CountStatus(Entries(order, groups), status) + (if entry.status == status then 1 else 0)
  {
    PushKeepsKeys(order, groups, key, entry);
    ListedMembers(order, key);
    if key in groups {
      PushListed(order, groups, key, entry);
    } else {
      PushNewKey(order, groups, key, entry);
      assert Group(groups, key) == [];
      assert Entries(order, groups) + Group(groups, key) == Entries(order, groups);
      CountOneMore(Entries(order, groups), entry);
    }
  }

  /** `onTestEnd` keeps the reporter's invariant: the state after recording `entry` under `key` is tallied again. */
  lemma {:induction false} RecordKeepsTallied(order: seq<string>, groups: map<string, seq<TestEntry>>,
                                             passed: nat, failed: nat, skipped: nat, calls: nat, key: string, entry: TestEntry,
                                             order': seq<string>, groups': map<string, seq<TestEntry>>,
                                             passed': nat, failed': nat, skipped': nat, calls': nat)
    requires Tallied(order, groups, passed, failed, skipped, calls)
    requires order' == if key in groups then order else order + [key]
    requires groups' == Push(groups, key, entry)
    requires passed' == passed + (if entry.status == Passed then 1 else 0)
    requires failed' == failed + (if entry.status == Failed then 1 else 0)
    requires skipped' == skipped + (if entry.status == Skipped then 1 else 0)
    requires calls' == calls + 1
    ensures Tallied(order', groups', passed', failed', skipped', calls')
  {
    PushKeepsTally(order, groups, key, entry, order', groups');
  }

  /** The three counters together never exceed the number of entries; other statuses make up the rest. */
  lemma {:induction false} SummaryBounded(entries: seq<TestEntry>)
    ensures CountStatus(entries, Passed) + CountStatus(entries, Failed) + CountStatus(entries, Skipped) <= |entries|
    decreases |entries|
  {
    if |entries| > 0 {
      SummaryBounded(entries[..|entries| - 1]);
    }
  }

  /** The report has one line per entry, two per group and four of summary. */
  lemma {:induction false} ReportLength(order: seq<string>, groups: map<string, seq<TestEntry>>, passed: nat, failed: nat, skipped: nat)
    ensures |ReportLines(order, groups, passed, failed, skipped)| == |Entries(order, groups)| + 2 * |order| + 4
  {
    GroupLinesLength(order, groups);
  }

  lemma {:induction false} GroupLinesLength(order: seq<string>, groups: map<string, seq<TestEntry>>)
    ensures |GroupLines(order, groups)| == |Entries(order, groups)| + 2 * |order|
    decreases |order|
  {
    if |order| > 0 {
      GroupLinesLength(order[..|order| - 1], groups);
    }
  }

  /** Tests in nested describes are keyed by the titles joined with ` › `; a top-level test goes under `Root`. */
  lemma {:induction false} DescribeKeyExamples()
    ensures DescribeKey(["login.spec.ts", "Login", "accepts a valid user"]) == "login.spec.ts › Login"
    ensures DescribeKey(["a test at the top"]) == "Root"
    ensures DescribeKey([]) == "Root"
    ensures TestName([]) == None
  {
    var parts := ["login.spec.ts", "Login", "accepts a valid user"];
    assert parts[..2] == ["login.spec.ts", "Login"];
    assert Join(["login.spec.ts", "Login"], Chevron) == "login.spec.ts" + Chevron + Join(["Login"], Chevron);
  }

  /** A fresh reporter's report is the summary alone, all zero. */
  lemma {:induction false} EmptyReport()
    ensures ReportLines([], map[], 0, 0, 0) == ["Summary:", "Passed: 0", "Failed: 0", "Skipped: 0"]
  {
    var zero := NatToString(0);
    assert zero == [DigitChar(0)] == "0";
    assert "Passed: " + zero == "Passed: 0";
    assert "Failed: " + zero == "Failed: 0";
    assert "Skipped: " + zero == "Skipped: 0";
    assert GroupLines([], map[]) == [];
  }
}
