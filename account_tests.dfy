/**
 * The account-creation spec (tests/TC001_create_account.spec.ts): one test
 * per row of `accounts.csv`, with an id `TC001`, `TC002`, … from the row
 * index and a title from the row's industry. Each test records its id and
 * a generated account name in the JSON registry that a later spec
 * (tests/TC005_create_newOpportunity_for_exist_account.spec.ts) reads
 * `TC001` back from.
 *
 * The CSV file's text is `None` when the file is missing or unreadable;
 * the generated account names are parameters.
 */
module AccountTests {
  import opened Wrappers
  import opened Text
  import opened CsvUtil

  /** `` `TC${(index + 1).toString().padStart(3, "0")}` ``. */
  function CaseId(index: nat): (id: string)
    ensures |id| >= 5 && id[..2] == "TC"
  {
    "TC" + PadStart(NatToString(index + 1), 3, '0')
  }

  /** `${row.Industry}`: `undefined` for a row without the column. */
  function IndustryText(row: Row): string
  {
    if "Industry" in row then row["Industry"] else "undefined"
  }

  const TitlePrefix := "Account Creation for Industry: "

  /** `` `Account Creation for Industry: ${row.Industry}` ``. */
  function CaseTitle(row: Row): (title: string)
    ensures |title| >= |TitlePrefix| && title[..|TitlePrefix|] == TitlePrefix && title[|TitlePrefix|..] == IndustryText(row)
  {
    TitlePrefix + IndustryText(row)
  }

  /** The rows the spec registers tests for: none when the CSV could not be read. */
  function TestData(csvText: Option<string>): seq<Row>
  {
    match csvText
    case None => []
    case Some(text) => ParseCsv(text)
  }

  /** One `test(...)` registration. */
  datatype RegisteredTest = RegisteredTest(id: string, title: string, row: Row)

  /** `testData.forEach((row, index) => test(testTitle, …))`, in row order. */
  function RegisterTests(rows: seq<Row>): (tests: seq<RegisteredTest>)
    ensures |tests| == |rows|
    ensures forall i :: 0 <= i < |tests| ==> tests[i].id == CaseId(i) && tests[i].row == rows[i]
  {
    seq(|rows|, i requires 0 <= i < |rows| => RegisteredTest(CaseId(i), CaseTitle(rows[i]), rows[i]))
  }

  /** The registry after `updateJSONFile(…, { [testCaseId]: acctName })`: the key is set, the rest kept. */
  function Record(registry: map<string, string>, id: string, name: string): (r: map<string, string>)
    ensures r.Keys == registry.Keys + {id}
    ensures r[id] == name
    ensures forall k :: k in registry && k != id ==> r[k] == registry[k]
  {
    registry[id := name]
  }

  /** The registry after running the tests in order, the i-th generating `names[i]`. */
  function RunAll(registry: map<string, string>, tests: seq<RegisteredTest>, names: seq<string>): (r: map<string, string>)
    requires |tests| == |names|
    ensures registry.Keys <= r.Keys
    ensures forall i :: 0 <= i < |tests| ==> tests[i].id in r
  {
    if |tests| == 0 then registry
    else Record(RunAll(registry, tests[..|tests| - 1], names[..|names| - 1]), tests[|tests| - 1].id, names[|names| - 1])
  }

  // ---------------------------------------------------------------------------
  // properties

  /** The digits after `TC` are the 1-based row number, left-padded with zeros to three and never cut. */
  lemma {:induction false} CaseIdDigits(index: nat)
    ensures CaseId(index)[..2] == "TC"
    ensures var digits := CaseId(index)[2..];
      AllDigits(digits) && DigitsValue(digits) == index + 1 &&
      |digits| == (if |NatToString(index + 1)| < 3 then 3 else |NatToString(index + 1)|) &&
      digits[|digits| - |NatToString(index + 1)|..] == NatToString(index + 1)
  {
    var numeral := NatToString(index + 1);
    var digits := PadStart(numeral, 3, '0');
    assert CaseId(index)[2..] == digits;
    var z := digits[..|digits| - |numeral|];
    assert digits == z + numeral;
    LeadingZerosValue(z, numeral);
  }

  /** Distinct rows get distinct ids. */
  lemma {:induction false} CaseIdInjective(i: nat, j: nat)
    ensures CaseId(i) == CaseId(j) ==> i == j
  {
    CaseIdDigits(i);
    CaseIdDigits(j);
  }

  lemma {:induction false} CaseIdExamples()
    ensures CaseId(0) == "TC001"
    ensures CaseId(9) == "TC010"
    ensures CaseId(999) == "TC1000"
  {
    assert NatToString(1) == "1";
    assert NatToString(10) == NatToString(1) + [DigitChar(0)] == "10";
    assert NatToString(100) == NatToString(10) + [DigitChar(0)] == "100";
    assert NatToString(1000) == NatToString(100) + [DigitChar(0)] == "1000";
    assert PadStart("1", 3, '0') == "00" + "1";
    assert PadStart("10", 3, '0') == "0" + "10";
  }

  /** Two rows get the same title exactly when their industries render the same. */
  lemma {:induction false} TitlesFollowIndustry(a: Row, b: Row)
    ensures CaseTitle(a) == CaseTitle(b) <==> IndustryText(a) == IndustryText(b)
  {
    if CaseTitle(a) == CaseTitle(b) {
      assert IndustryText(a) == CaseTitle(a)[|TitlePrefix|..];
      assert IndustryText(b) == CaseTitle(b)[|TitlePrefix|..];
    }
  }

  /** One test per row, in row order, with distinct ids; none when the CSV is missing. */
  lemma {:induction false} OneTestPerRow(csvText: Option<string>, i: nat, j: nat)
    ensures |RegisterTests(TestData(csvText))| == |TestData(csvText)|
    ensures csvText == None ==> RegisterTests(TestData(csvText)) == []
    ensures var rows := TestData(csvText);
      i < |rows| ==> RegisterTests(rows)[i] == RegisteredTest(CaseId(i), CaseTitle(rows[i]), rows[i])
    ensures var tests := RegisterTests(TestData(csvText));
      i < j < |tests| ==> tests[i].id != tests[j].id
  {
    CaseIdInjective(i, j);
  }

  /** A key keeps the name of the last test that recorded under it. */
  lemma {:induction false} LastRecordWins(registry: map<string, string>, tests: seq<RegisteredTest>, names: seq<string>, k: nat)
    requires |tests| == |names|
    requires k < |tests|
    requires forall j :: k < j < |tests| ==> tests[j].id != tests[k].id
    ensures tests[k].id in RunAll(registry, tests, names)
    ensures RunAll(registry, tests, names)[tests[k].id] == names[k]
    decreases |tests|
  {
    var n := |tests| - 1;
    if k < n {
      LastRecordWins(registry, tests[..n], names[..n], k);
    }
  }

  /** After the tests run, each one's id holds the name it generated. */
  lemma {:induction false} RegistryHoldsEachName(registry: map<string, string>, rows: seq<Row>, names: seq<string>, k: nat)
    requires |names| == |rows|
    requires k < |rows|
    ensures CaseId(k) in RunAll(registry, RegisterTests(rows), names)
    ensures RunAll(registry, RegisterTests(rows), names)[CaseId(k)] == names[k]
  {
    var tests := RegisterTests(rows);
    forall j | k < j < |tests|
      ensures tests[j].id != tests[k].id
    {
      CaseIdInjective(k, j);
    }
    LastRecordWins(registry, tests, names, k);
  }

  /** The `TC001` a later spec reads back is the name the first row's test generated. */
  lemma {:induction false} FirstAccountReadBack(registry: map<string, string>, csvText: Option<string>, names: seq<string>)
    requires |names| == |TestData(csvText)| >= 1
    ensures "TC001" in RunAll(registry, RegisterTests(TestData(csvText)), names)
    ensures RunAll(registry, RegisterTests(TestData(csvText)), names)["TC001"] == names[0]
  {
    CaseIdExamples();
    RegistryHoldsEachName(registry, TestData(csvText), names, 0);
  }
}
