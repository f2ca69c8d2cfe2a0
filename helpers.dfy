/** The client's pure helpers (src/utils/helpers.js): search filter, copy-then-sort,
    leave-day count, month names, status badge classes, e-mail and phone
    validation, and error-message extraction. */
module Helpers {
  import opened Wrappers
  import opened Text
  import opened Seqs

  /** A field of a record as JavaScript sees it: a string, a number, or
      null/undefined. */
  datatype Cell = Str(s: string) | Num(n: int) | Absent

  /** Decimal rendering of an integer, as `toString` gives it. */
  function IntToString(n: int): (r: string)
    ensures |r| > 0
    decreases if n < 0 then -n + 1 else n
  {
    if n < 0 then "-" + IntToString(-n)
    else if n < 10 then [DigitChar(n)]
    else IntToString(n / 10) + [DigitChar(n % 10)]
  }

  function DigitChar(d: int): char
    requires 0 <= d < 10
  {
    ('0' as int + d) as char
  }

  /** `cell?.toString()`: None for null/undefined. */
  function CellText(c: Cell): (r: Option<string>)
    ensures r.None? <==> c.Absent?
  {
    match c
    case Str(s) => Some(s)
    case Num(n) => Some(IntToString(n))
    case Absent => None
  }

  /** One key of `keys.some(...)` in filterBy: the field's text, lower-cased,
      contains the lower-cased term. */
  predicate KeyMatches<T>(item: T, term: string, key: T -> Cell)
  {
    var t := CellText(key(item));
    t.Some? && Includes(ToLower(t.value), ToLower(term))
  }

  predicate Matches<T>(item: T, term: string, keys: seq<T -> Cell>)
  {
    exists k :: 0 <= k < |keys| && KeyMatches(item, term, keys[k])
  }

  /** `filterBy(items, searchTerm, keys)`. */
  function FilterBy<T(==)>(items: seq<T>, searchTerm: string, keys: seq<T -> Cell>): (r: seq<T>)
    ensures searchTerm == "" ==> r == items
    ensures IsSubsequence(r, items)
    ensures searchTerm != "" ==> forall i :: 0 <= i < |r| ==> Matches(r[i], searchTerm, keys)
    ensures searchTerm != "" ==>
      forall i :: 0 <= i < |items| && Matches(items[i], searchTerm, keys) ==> items[i] in r
    ensures searchTerm != "" ==>
      forall i :: 0 <= i < |items| ==>
        multiset(r)[items[i]] == if Matches(items[i], searchTerm, keys) then multiset(items)[items[i]] else 0
  {
    if searchTerm == "" then (SubsequenceRefl(items); items)
    else
      var p := (item: T) => Matches(item, searchTerm, keys);
      FilterMultiset(items, p);
      Filter(items, p)
  }

  /** An item whose listed keys are all null or undefined never matches a
      non-empty search. */
  lemma AbsentKeysNeverMatch<T>(items: seq<T>, searchTerm: string, keys: seq<T -> Cell>, item: T)
    requires forall k :: 0 <= k < |keys| ==> keys[k](item).Absent?
    ensures !Matches(item, searchTerm, keys)
    ensures searchTerm != "" ==> item !in FilterBy(items, searchTerm, keys)
  {
  }

  /** The search ignores the case of the term. */
  lemma FilterByIgnoresTermCase<T>(items: seq<T>, term1: string, term2: string, keys: seq<T -> Cell>)
    requires term1 != "" && term2 != ""
    requires ToLower(term1) == ToLower(term2)
    ensures FilterBy(items, term1, keys) == FilterBy(items, term2, keys)
  {
    var p1 := (item: T) => Matches(item, term1, keys);
    var p2 := (item: T) => Matches(item, term2, keys);
    assert forall item :: p1(item) == p2(item) by {
      forall item ensures p1(item) == p2(item) {
        assert forall k :: 0 <= k < |keys| ==> KeyMatches(item, term1, keys[k]) == KeyMatches(item, term2, keys[k]);
      }
    }
    SameFilter(items, p1, p2);
  }

  lemma {:induction false} SameFilter<T>(s: seq<T>, p: T -> bool, q: T -> bool)
    requires forall x :: p(x) == q(x)
    ensures Filter(s, p) == Filter(s, q)
  {
    if s != [] { SameFilter(s[1..], p, q); }
  }

  // ---- sortBy ----

  /** JavaScript `a > b` between two field values: strings in string order,
      numbers numerically. Every other pair compares false here. JavaScript
      instead converts a null to 0 against a number (`5 > null` holds) and a
      string to a number against a number; the model claims no order for
      such pairs (see `Comparable`). */
  predicate Greater(a: Cell, b: Cell)
  {
    match (a, b)
    case (Str(x), Str(y)) => StrLess(y, x)
    case (Num(x), Num(y)) => x > y
    case _ => false
  }

  lemma GreaterIsStrictOrder(a: Cell, b: Cell, c: Cell)
    ensures !Greater(a, a)
    ensures Greater(a, b) ==> !Greater(b, a)
    ensures Greater(a, b) && Greater(b, c) ==> Greater(a, c)
  {
    match (a, b, c)
    case (Str(x), Str(y), Str(z)) =>
      StrLessIrreflexive(x);
      if StrLess(y, x) && StrLess(x, y) { StrLessTransitive(x, y, x); StrLessIrreflexive(x); }
      if StrLess(y, x) && StrLess(z, y) { StrLessTransitive(z, y, x); }
    case (Str(x), Str(y), _) =>
      StrLessIrreflexive(x);
      if StrLess(y, x) && StrLess(x, y) { StrLessTransitive(x, y, x); StrLessIrreflexive(x); }
    case (Str(x), _, _) => StrLessIrreflexive(x);
    case _ =>
  }

  /** The comparator of sortBy: 1 or -1, never 0. */
  function Compare<T>(a: T, b: T, key: T -> Cell, direction: string): (r: int)
    ensures r == 1 || r == -1
  {
    if direction == "asc" then (if Greater(key(a), key(b)) then 1 else -1)
    else (if Greater(key(b), key(a)) then 1 else -1)
  }

  /** `x` belongs strictly before `y` in the requested direction. */
  predicate Before<T>(x: T, y: T, key: T -> Cell, direction: string)
  {
    if direction == "asc" then Greater(key(y), key(x)) else Greater(key(x), key(y))
  }

  /** The comparator asks to move `a` after `b` exactly when `b` belongs before `a`. */
  lemma CompareMeansBefore<T>(a: T, b: T, key: T -> Cell, direction: string)
    ensures Compare(a, b, key, direction) > 0 <==> Before(b, a, key, direction)
  {
  }

  /** Insert `x` before the first element the comparator does not put `x` after. */
  function Insert<T>(x: T, sorted: seq<T>, key: T -> Cell, direction: string): (r: seq<T>)
    ensures multiset(r) == multiset(sorted) + multiset{x}
  {
    if sorted == [] then [x]
    else if Compare(x, sorted[0], key, direction) > 0 then
      assert sorted == [sorted[0]] + sorted[1..];
      [sorted[0]] + Insert(x, sorted[1..], key, direction)
    else [x] + sorted
  }

  /** `sortBy(items, key, direction)`: `[...items].sort(comparator)`. The copy
      is implicit: sequences are values, so the caller's items is untouched. */
  function SortBy<T>(items: seq<T>, key: T -> Cell, direction: string): (r: seq<T>)
    ensures multiset(r) == multiset(items)
    ensures |r| == |items|
  {
    if items == [] then []
    else
      assert items == [items[0]] + items[1..];
      Insert(items[0], SortBy(items[1..], key, direction), key, direction)
  }

  predicate Ordered<T>(s: seq<T>, key: T -> Cell, direction: string)
  {
    forall i, j :: 0 <= i < j < |s| ==> Before(s[i], s[j], key, direction)
  }

  /** Every two elements are ordered one way or the other. */
  predicate Comparable<T>(s: seq<T>, key: T -> Cell, direction: string)
  {
    forall i, j :: 0 <= i < |s| && 0 <= j < |s| && i != j ==>
      Before(s[i], s[j], key, direction) || Before(s[j], s[i], key, direction)
  }

  lemma BeforeIsStrictOrder<T>(x: T, y: T, z: T, key: T -> Cell, direction: string)
    ensures !Before(x, x, key, direction)
    ensures Before(x, y, key, direction) ==> !Before(y, x, key, direction)
    ensures Before(x, y, key, direction) && Before(y, z, key, direction) ==> Before(x, z, key, direction)
  {
    GreaterIsStrictOrder(key(x), key(y), key(z));
    GreaterIsStrictOrder(key(z), key(y), key(x));
    GreaterIsStrictOrder(key(y), key(x), key(z));
  }

  lemma {:induction false} InsertOrdered<T>(x: T, s: seq<T>, key: T -> Cell, direction: string)
    requires Ordered(s, key, direction)
    requires forall i :: 0 <= i < |s| ==> Before(x, s[i], key, direction) || Before(s[i], x, key, direction)
    ensures Ordered(Insert(x, s, key, direction), key, direction)
  {
    if s != [] {
      var r := Insert(x, s, key, direction);
      if Compare(x, s[0], key, direction) > 0 {
        CompareMeansBefore(x, s[0], key, direction);
        InsertOrdered(x, s[1..], key, direction);
        var rest := Insert(x, s[1..], key, direction);
        assert r == [s[0]] + rest;
        assert multiset(rest) == multiset(s[1..]) + multiset{x};
        forall j | 0 <= j < |rest| ensures Before(s[0], rest[j], key, direction) {
          assert rest[j] in multiset(rest);
          if rest[j] == x {
          } else {
            assert rest[j] in multiset(s[1..]);
            var k :| 0 <= k < |s[1..]| && s[1..][k] == rest[j];
            assert s[k + 1] == rest[j];
          }
        }
      } else {
        CompareMeansBefore(x, s[0], key, direction);
        assert Before(x, s[0], key, direction);
        forall j | 0 < j < |s| ensures Before(x, s[j], key, direction) {
          BeforeIsStrictOrder(x, s[0], s[j], key, direction);
        }
      }
    }
  }

  /** For pairwise-distinct keys, sortBy 'asc' yields strictly ascending keys
      and any other direction strictly descending ones. */
  lemma {:induction false} SortByOrdered<T>(items: seq<T>, key: T -> Cell, direction: string)
    requires Comparable(items, key, direction)
    ensures Ordered(SortBy(items, key, direction), key, direction)
  {
    if items != [] {
      var tail := items[1..];
      assert Comparable(tail, key, direction) by {
        forall i, j | 0 <= i < |tail| && 0 <= j < |tail| && i != j
          ensures Before(tail[i], tail[j], key, direction) || Before(tail[j], tail[i], key, direction)
        {
          assert tail[i] == items[i + 1] && tail[j] == items[j + 1];
        }
      }
      SortByOrdered(tail, key, direction);
      var sorted := SortBy(tail, key, direction);
      forall i | 0 <= i < |sorted|
        ensures Before(items[0], sorted[i], key, direction) || Before(sorted[i], items[0], key, direction)
      {
        assert sorted[i] in multiset(tail);
        var k :| 0 <= k < |tail| && tail[k] == sorted[i];
        assert items[k + 1] == sorted[i];
      }
      InsertOrdered(items[0], sorted, key, direction);
    }
  }

  // ---- calculateLeaveDays ----

  /** `calculateLeaveDays(startDate, endDate)` on day numbers; an empty date is
      None. */
  function CalculateLeaveDays(startDate: Option<int>, endDate: Option<int>): (r: int)
    ensures startDate.None? || endDate.None? ==> r == 0
    ensures startDate.Some? && endDate.Some? ==>
      r >= 1 && (r - 1 == endDate.value - startDate.value || r - 1 == startDate.value - endDate.value)
  {
    if startDate.None? || endDate.None? then 0
    else
      var diff := endDate.value - startDate.value;
      (if diff < 0 then -diff else diff) + 1
  }

  lemma CalculateLeaveDaysSymmetric(a: Option<int>, b: Option<int>)
    ensures CalculateLeaveDays(a, b) == CalculateLeaveDays(b, a)
    ensures a.Some? ==> CalculateLeaveDays(a, a) == 1
  {
  }

  // ---- getMonthName ----

  const MonthNames: seq<string> := ["January", "February", "March", "April", "May", "June",
    "July", "August", "September", "October", "November", "December"]

  /** `getMonthName(monthNumber)`: `months[monthNumber - 1] || ''`. */
  function GetMonthName(monthNumber: int): (r: string)
    ensures 1 <= monthNumber <= 12 <==> r != ""
    ensures 1 <= monthNumber <= 12 ==> r == MonthNames[monthNumber - 1]
  {
    if 1 <= monthNumber <= 12 then MonthNames[monthNumber - 1] else ""
  }

  /** Distinct months have distinct names. */
  lemma MonthNamesDistinct(m1: int, m2: int)
    requires 1 <= m1 <= 12 && 1 <= m2 <= 12 && m1 != m2
    ensures GetMonthName(m1) != GetMonthName(m2)
  {
  }

  // ---- getStatusBadgeClass ----

  function GetStatusBadgeClass(status: string): (r: string)
  {
    if status == "PENDING" then "badge bg-warning text-dark status-pending"
    else if status == "APPROVED" then "badge bg-success status-approved"
    else if status == "REJECTED" then "badge bg-danger status-rejected"
    else if status == "PROCESSED" then "badge bg-info status-processed"
    else if status == "PAID" then "badge bg-success"
    else "badge bg-secondary"
  }

  /** Every status name of the system has its own styling; any other string gets
      the neutral badge. */
  lemma StatusBadgeClasses(status: string)
    ensures status in {"PENDING", "APPROVED", "REJECTED", "PROCESSED", "PAID"}
      <==> GetStatusBadgeClass(status) != "badge bg-secondary"
  {
  }

  // ---- validateEmail ----

  /** A run of characters matched by `[^\s@]+`. */
  predicate Plain(t: string)
  {
    |t| > 0 && forall i :: 0 <= i < |t| ==> !IsSpace(t[i]) && t[i] != '@'
  }

  /** The language of `^[^\s@]+@[^\s@]+\.[^\s@]+$`. */
  predicate EmailPattern(email: string)
  {
    exists a, b :: 0 < a < b < |email| - 1 && email[a] == '@' && email[b] == '.'
      && Plain(email[..a]) && Plain(email[a + 1..b]) && Plain(email[b + 1..])
  }

  function IndexOf(s: string, c: char): (r: Option<nat>)
    ensures r.Some? ==> r.value < |s| && s[r.value] == c && c !in s[..r.value]
    ensures r.None? ==> c !in s
  {
    if s == [] then None
    else if s[0] == c then Some(0)
    else match IndexOf(s[1..], c)
      case None => None
      case Some(k) => assert s[1..][..k] == s[1..k + 1]; Some(k + 1)
  }

  /** The domain part `[^\s@]+\.[^\s@]+`: no white space or '@', and a dot
      that is neither first nor last. */
  predicate DomainOk(d: string)
  {
    Plain(d) && exists b :: 0 < b < |d| - 1 && d[b] == '.'
  }

  /** `validateEmail(email)`: split at the first '@' and check both sides. */
  function ValidateEmail(email: string): (r: bool)
  {
    match IndexOf(email, '@')
    case None => false
    case Some(a) => Plain(email[..a]) && DomainOk(email[a + 1..])
  }

  lemma ValidateEmailMatchesPattern(email: string)
    ensures ValidateEmail(email) <==> EmailPattern(email)
  {
    if ValidateEmail(email) { ValidEmailIsPattern(email); }
    if EmailPattern(email) { PatternIsValidEmail(email); }
  }

  lemma ValidEmailIsPattern(email: string)
    requires ValidateEmail(email)
    ensures EmailPattern(email)
  {
    var a := IndexOf(email, '@').value;
    var d := email[a + 1..];
    var b :| 0 < b < |d| - 1 && d[b] == '.';
    assert email[a + 1..a + 1 + b] == d[..b];
    assert email[a + 1 + b + 1..] == d[b + 1..];
    PlainSlice(d, 0, b);
    PlainSlice(d, b + 1, |d|);
    assert d[0..b] == d[..b] && d[b + 1..|d|] == d[b + 1..];
    assert email[a + 1 + b] == '.';
  }

  /** A non-empty piece of a plain run is plain. */
  lemma PlainSlice(t: string, i: int, j: int)
    requires Plain(t) && 0 <= i < j <= |t|
    ensures Plain(t[i..j])
  {
    forall k | 0 <= k < j - i ensures !IsSpace(t[i..j][k]) && t[i..j][k] != '@' {
      assert t[i..j][k] == t[i + k];
    }
  }

  lemma PatternIsValidEmail(email: string)
    requires EmailPattern(email)
    ensures ValidateEmail(email)
  {
    var a, b :| 0 < a < b < |email| - 1 && email[a] == '@' && email[b] == '.'
      && Plain(email[..a]) && Plain(email[a + 1..b]) && Plain(email[b + 1..]);
    FirstAt(email, a);
    DomainOfPattern(email, a, b);
  }

  /** The first '@' is the one the pattern's local part ends at. */
  lemma FirstAt(email: string, a: int)
    requires 0 <= a < |email| && email[a] == '@' && Plain(email[..a])
    ensures IndexOf(email, '@') == Some(a)
  {
    var first := IndexOf(email, '@');
    assert email[..a + 1][a] == '@';
    var f := first.value;
    assert forall i :: 0 <= i < a ==> email[..a][i] == email[i];
    assert forall i :: 0 <= i < f ==> email[..f][i] == email[i];
  }

  lemma DomainOfPattern(email: string, a: int, b: int)
    requires 0 < a < b < |email| - 1 && email[b] == '.'
    requires Plain(email[a + 1..b]) && Plain(email[b + 1..])
    ensures DomainOk(email[a + 1..])
  {
    var d := email[a + 1..];
    var m := b - a - 1;
    assert d[m] == '.';
    forall i | 0 <= i < |d| ensures !IsSpace(d[i]) && d[i] != '@' {
      if i < m { assert d[i] == email[a + 1..b][i]; }
      else if i > m { assert d[i] == email[b + 1..][i - m - 1]; }
    }
  }

  // ---- validatePhone ----

  predicate IsDigit(c: char)
  {
    '0' <= c <= '9'
  }

  /** `phone.replace(/\D/g, '')`. */
  function DigitsOf(phone: string): (r: string)
    ensures forall i :: 0 <= i < |r| ==> IsDigit(r[i])
  {
    Filter(phone, IsDigit)
  }

  /** `validatePhone(phone)`: exactly ten digits once the rest is stripped. */
  function ValidatePhone(phone: string): (r: bool)
    ensures r <==> Count(phone, IsDigit) == 10
  {
    |DigitsOf(phone)| == 10
  }

  /** Separators are ignored: inserting a non-digit never changes the verdict. */
  lemma ValidatePhoneIgnoresSeparators(a: string, c: char, b: string)
    requires !IsDigit(c)
    ensures ValidatePhone(a + [c] + b) == ValidatePhone(a + b)
  {
    CountAppend(a + [c], b, IsDigit);
    CountAppend(a, [c], IsDigit);
    CountAppend(a, b, IsDigit);
  }

  // ---- getErrorMessage ----

  /** The body of a failed response: a JSON object, its properties in order. */
  datatype ErrorData = ErrorData(entries: seq<(string, string)>)

  /** An axios error: the optional response data and the error's own message. */
  datatype RequestError = RequestError(data: Option<ErrorData>, message: string)

  function Lookup(entries: seq<(string, string)>, name: string): Option<string>
  {
    if entries == [] then None
    else if entries[0].0 == name then Some(entries[0].1)
    else Lookup(entries[1..], name)
  }

  function Values(entries: seq<(string, string)>): (r: seq<string>)
    ensures |r| == |entries|
    ensures forall i :: 0 <= i < |r| ==> r[i] == entries[i].1
  {
    if entries == [] then [] else [entries[0].1] + Values(entries[1..])
  }

  /** The `message` property, when present and not empty. */
  function DataMessage(error: RequestError): Option<string>
  {
    if error.data.Some? then
      match Lookup(error.data.value.entries, "message")
      case Some(m) => if m != "" then Some(m) else None
      case None => None
    else None
  }

  /** `getErrorMessage(error)`. */
  function GetErrorMessage(error: RequestError): (r: string)
    ensures DataMessage(error).Some? ==> r == DataMessage(error).value
    ensures DataMessage(error).None? && error.data.Some? ==>
      r == Join(Values(error.data.value.entries), ", ")
    ensures error.data.None? && error.message != "" ==> r == error.message
    ensures error.data.None? && error.message == "" ==> r == "An error occurred"
  {
    match DataMessage(error)
    case Some(m) => m
    case None =>
      if error.data.Some? then Join(Values(error.data.value.entries), ", ")
      else if error.message != "" then error.message
      else "An error occurred"
  }

  /** Without a response body the message is never empty. */
  lemma ErrorMessageWithoutDataNonEmpty(error: RequestError)
    requires error.data.None?
    ensures GetErrorMessage(error) != ""
  {
  }

  /** Each field error of a body without `message` appears in the text. */
  lemma {:induction false} FieldErrorsAllShown(values: seq<string>, k: nat)
    requires k < |values|
    ensures Includes(Join(values, ", "), values[k])
  {
    var j := Join(values, ", ");
    IncludesIff(j, values[k]);
    var pos := JoinPosition(values, k);
    assert OccursAt(j, values[k], pos);
  }

  lemma {:induction false} JoinPosition(values: seq<string>, k: nat) returns (pos: nat)
    requires k < |values|
    ensures OccursAt(Join(values, ", "), values[k], pos)
  {
    if |values| == 1 {
      pos := 0;
    } else if k == 0 {
      pos := 0;
      assert Join(values, ", ")[..|values[0]|] == values[0];
    } else {
      var inner := JoinPosition(values[1..], k - 1);
      var prefix := values[0] + ", ";
      pos := |prefix| + inner;
      assert Join(values, ", ") == prefix + Join(values[1..], ", ");
      assert Join(values, ", ")[pos..pos + |values[k]|] == Join(values[1..], ", ")[inner..inner + |values[k]|];
    }
  }
}
