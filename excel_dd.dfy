/**
 * `ExcelDataProvider` (helpers/dataUtils/excelDD.ts): test data read from a
 * workbook's sheets, whole or filtered by test-case id or by criteria.
 *
 * The workbook is the map from each sheet name to the rows `sheet_to_json`
 * gives for it; a row maps column names to cell values of type `V`.
 */
module ExcelDd {
  import opened Wrappers

  type Row<V> = map<string, V>

  type Workbook<V> = map<string, seq<Row<V>>>

  /** The column `getTestDataByIds` filters on. */
  const IdColumn := "TestCaseID"

  /** `s.filter(p)`: the elements satisfying `p`, in their order. */
  function Filter<T>(s: seq<T>, p: T -> bool): (r: seq<T>)
    ensures |r| <= |s|
    ensures forall i :: 0 <= i < |r| ==> p(r[i])
    decreases |s|
  {
    if |s| == 0 then []
    else (if p(s[0]) then [s[0]] else []) + Filter(s[1..], p)
  }

  /** `getTestData`: the sheet's rows, or the error thrown for a sheet the workbook lacks. */
  function GetTestData<V>(workbook: Workbook<V>, sheetName: string): (r: Result<seq<Row<V>>, string>)
    ensures r.Success? <==> sheetName in workbook
    ensures r.Success? ==> r.value == workbook[sheetName]
  {
    if sheetName in workbook then Success(workbook[sheetName])
    else Failure("Sheet \"" + sheetName + "\" not found in workbook")
  }

  /** `testCaseIds.includes(row.TestCaseID)`: a row without the column is `undefined` there and never matches. */
  predicate HasListedId<V(==)>(row: Row<V>, testCaseIds: seq<V>)
  {
    IdColumn in row && row[IdColumn] in testCaseIds
  }

  /** `Object.entries(criteria).every(([key, value]) => row[key] === value)`. */
  predicate MeetsCriteria<V(==)>(row: Row<V>, criteria: map<string, V>)
  {
    forall key :: key in criteria ==> key in row && row[key] == criteria[key]
  }

  /** `getTestDataByIds`. */
  function GetTestDataByIds<V(==)>(workbook: Workbook<V>, sheetName: string, testCaseIds: seq<V>): (r: Result<seq<Row<V>>, string>)
    ensures r.Success? <==> sheetName in workbook
    ensures r.Success? ==> |r.value| <= |workbook[sheetName]| && forall i :: 0 <= i < |r.value| ==> HasListedId(r.value[i], testCaseIds)
  {
    match GetTestData(workbook, sheetName)
    case Failure(e) => Failure(e)
    case Success(rows) => Success(Filter(rows, row => HasListedId(row, testCaseIds)))
  }

  /** `getTestDataByCriteria`. */
  function GetTestDataByCriteria<V(==)>(workbook: Workbook<V>, sheetName: string, criteria: map<string, V>): (r: Result<seq<Row<V>>, string>)
    ensures r.Success? <==> sheetName in workbook
    ensures r.Success? ==> |r.value| <= |workbook[sheetName]| && forall i :: 0 <= i < |r.value| ==> MeetsCriteria(r.value[i], criteria)
  {
    match GetTestData(workbook, sheetName)
    case Failure(e) => Failure(e)
    case Success(rows) => Success(Filter(rows, row => MeetsCriteria(row, criteria)))
  }

  // ---------------------------------------------------------------------------
  // filter

  /** A filter keeps every copy of a row that passes and drops every copy of one that fails. */
  lemma {:induction false} FilterCounts<T>(s: seq<T>, p: T -> bool, x: T)
    ensures multiset(Filter(s, p))[x] == if p(x) then multiset(s)[x] else 0
    decreases |s|
  {
    if |s| > 0 {
      FilterCounts(s[1..], p, x);
      assert s == [s[0]] + s[1..];
    }
  }

  /** A filter keeps order: filtering a concatenation concatenates the filtered parts. */
  lemma {:induction false} FilterAppend<T>(a: seq<T>, b: seq<T>, p: T -> bool)
    ensures Filter(a + b, p) == Filter(a, p) + Filter(b, p)
    decreases |a|
  {
    if |a| > 0 {
      assert (a + b)[1..] == a[1..] + b;
      FilterAppend(a[1..], b, p);
    } else {
      assert a + b == b;
    }
  }

  /** Two predicates that agree on every element select the same rows. */
  lemma {:induction false} FilterAgree<T>(s: seq<T>, p: T -> bool, q: T -> bool)
    requires forall i :: 0 <= i < |s| ==> p(s[i]) == q(s[i])
    ensures Filter(s, p) == Filter(s, q)
    decreases |s|
  {
    if |s| > 0 {
      FilterAgree(s[1..], p, q);
    }
  }

  /** Filtering by `p` then by `q` is filtering by both. */
  lemma {:induction false} FilterTwice<T>(s: seq<T>, p: T -> bool, q: T -> bool, both: T -> bool)
    requires forall x :: both(x) == (p(x) && q(x))
    ensures Filter(Filter(s, p), q) == Filter(s, both)
    decreases |s|
  {
    if |s| > 0 {
      FilterTwice(s[1..], p, q, both);
      var head := if p(s[0]) then [s[0]] else [];
      FilterAppend(head, Filter(s[1..], p), q);
      if p(s[0]) {
        assert Filter(head, q) == (if q(s[0]) then [s[0]] else []) + Filter([], q);
      }
    }
  }

  // ---------------------------------------------------------------------------
  // properties of the provider

  /** Every query fails, with the same error, exactly when the workbook lacks the sheet. */
  lemma {:induction false} MissingSheetFails<V>(workbook: Workbook<V>, sheetName: string, testCaseIds: seq<V>, criteria: map<string, V>)
    ensures GetTestData(workbook, sheetName).Failure? <==> sheetName !in workbook
    ensures sheetName !in workbook ==>
      GetTestDataByIds(workbook, sheetName, testCaseIds) == GetTestData(workbook, sheetName) &&
      GetTestDataByCriteria(workbook, sheetName, criteria) == GetTestData(workbook, sheetName) &&
      GetTestData(workbook, sheetName).error == "Sheet \"" + sheetName + "\" not found in workbook"
    ensures sheetName in workbook ==>
      GetTestDataByIds(workbook, sheetName, testCaseIds).Success? &&
      GetTestDataByCriteria(workbook, sheetName, criteria).Success?
  {
  }

  /** `getTestDataByIds` keeps each copy of a row exactly when its id is listed, and drops all copies otherwise. */
  lemma {:induction false} ByIdsKeepsListed<V>(workbook: Workbook<V>, sheetName: string, testCaseIds: seq<V>, row: Row<V>)
    requires sheetName in workbook
    ensures var r := GetTestDataByIds(workbook, sheetName, testCaseIds).value;
      multiset(r)[row] == if HasListedId(row, testCaseIds) then multiset(workbook[sheetName])[row] else 0
  {
    FilterCounts(workbook[sheetName], row => HasListedId(row, testCaseIds), row);
  }

  /** Listing an id twice, or in another order, selects the same rows in the same order; an empty list selects none. */
  lemma {:induction false} ByIdsOnlySeesTheSetOfIds<V>(workbook: Workbook<V>, sheetName: string, ids: seq<V>, others: seq<V>)
    requires sheetName in workbook
    requires forall id :: id in ids <==> id in others
    ensures GetTestDataByIds(workbook, sheetName, ids) == GetTestDataByIds(workbook, sheetName, others)
    ensures GetTestDataByIds(workbook, sheetName, []) == Success([])
  {
    var rows := workbook[sheetName];
    forall i | 0 <= i < |rows|
      ensures HasListedId(rows[i], ids) == HasListedId(rows[i], others)
    {
    }
    FilterAgree(rows, row => HasListedId(row, ids), row => HasListedId(row, others));
    EmptyFilter(rows, row => HasListedId(row, []));
  }

  /** A predicate that holds of nothing keeps nothing. */
  lemma {:induction false} EmptyFilter<T>(s: seq<T>, p: T -> bool)
    requires forall x :: !p(x)
    ensures Filter(s, p) == []
    decreases |s|
  {
    if |s| > 0 {
      EmptyFilter(s[1..], p);
    }
  }

  /** A predicate that holds of everything keeps everything. */
  lemma {:induction false} FullFilter<T>(s: seq<T>, p: T -> bool)
    requires forall x :: p(x)
    ensures Filter(s, p) == s
    decreases |s|
  {
    if |s| > 0 {
      FullFilter(s[1..], p);
      assert s == [s[0]] + s[1..];
    }
  }

  /** `getTestDataByCriteria` keeps each copy of a row exactly when every criterion holds of it. */
  lemma {:induction false} ByCriteriaKeepsMatching<V>(workbook: Workbook<V>, sheetName: string, criteria: map<string, V>, row: Row<V>)
    requires sheetName in workbook
    ensures var r := GetTestDataByCriteria(workbook, sheetName, criteria).value;
      multiset(r)[row] == if MeetsCriteria(row, criteria) then multiset(workbook[sheetName])[row] else 0
  {
    FilterCounts(workbook[sheetName], row => MeetsCriteria(row, criteria), row);
  }

  /** No criteria: every row of the sheet, in order. */
  lemma {:induction false} NoCriteriaKeepsAll<V>(workbook: Workbook<V>, sheetName: string)
    ensures GetTestDataByCriteria(workbook, sheetName, map[]) == GetTestData(workbook, sheetName)
  {
    if sheetName in workbook {
      FullFilter(workbook[sheetName], row => MeetsCriteria(row, map[]));
    }
  }

  /** Adding a criterion on a new column filters the earlier answer further: it never adds a row. */
  lemma {:induction false} ExtraCriterionNarrows<V>(workbook: Workbook<V>, sheetName: string, criteria: map<string, V>, key: string, value: V)
    requires sheetName in workbook
    requires key !in criteria
    ensures GetTestDataByCriteria(workbook, sheetName, criteria[key := value]).value ==
      Filter(GetTestDataByCriteria(workbook, sheetName, criteria).value, row => key in row && row[key] == value)
  {
    var more := criteria[key := value];
    var p := (row: Row<V>) => MeetsCriteria(row, criteria);
    var q := (row: Row<V>) => key in row && row[key] == value;
    var both := (row: Row<V>) => MeetsCriteria(row, more);
    forall row: Row<V>
      ensures both(row) == (p(row) && q(row))
    {
      if p(row) && q(row) {
        forall k | k in more
          ensures k in row && row[k] == more[k]
        {
          if k != key {
            assert k in criteria;
          }
        }
      }
      if both(row) {
        forall k | k in criteria
          ensures k in row && row[k] == criteria[k]
        {
          assert k in more && more[k] == criteria[k];
        }
        assert key in more;
      }
    }
    FilterTwice(workbook[sheetName], p, q, both);
  }
}
