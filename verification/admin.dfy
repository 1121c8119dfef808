/**
 * Two admin actions with a pure core: turning laser services on or off for
 * a date (`toggleLaserForDate`) and validating a new catalogue entry
 * (`addService`).
 */
module Admin {
  import opened Wrappers
  import opened Seqs
  import opened Salon

  // ---------------------------------------------------------------- laser dates

  datatype ToggleError = NoDateSelected   // "Please select a date first"

  /**
   * A listed date is removed (its first occurrence), an unlisted one is
   * appended. With no date selected nothing changes.
   */
  function ToggleLaserDate(dates: seq<string>, date: string): (r: Result<seq<string>, ToggleError>)
    ensures r.Failure? <==> date == ""
    ensures r.Success? && date in dates ==> multiset(r.value) == multiset(dates) - multiset{date}
    ensures r.Success? && date !in dates ==> multiset(r.value) == multiset(dates) + multiset{date}
    ensures r.Success? && NoDup(dates) ==> NoDup(r.value) && (date in r.value <==> date !in dates)
    ensures r.Success? ==> forall d :: d != date ==> (d in r.value <==> d in dates)
  {
    if date == "" then Failure(NoDateSelected)
    else if date in dates then
      var r := RemoveFirst(dates, date);
      assert forall d :: d in r <==> multiset(r)[d] > 0;
      assert forall d :: d in dates <==> multiset(dates)[d] > 0;
      Success(r)
    else
      var r := dates + [date];
      assert forall d :: d in r <==> d in dates || d == date;
      Success(r)
  }

  /**
   * On a list without repeats (which toggling keeps so), toggling the same
   * date twice leaves the same dates, each as often as before.
   */
  lemma {:induction false} ToggleTwice(dates: seq<string>, date: string)
    requires date != "" && NoDup(dates)
    ensures var once := ToggleLaserDate(dates, date).value;
            multiset(ToggleLaserDate(once, date).value) == multiset(dates)
  {
    var once := ToggleLaserDate(dates, date).value;
    if date in dates {
      assert date !in once;
    } else {
      assert date in once;
    }
  }

  // ---------------------------------------------------------------- new services

  /** The characters `String.prototype.trim` removes: white space and line terminators. */
  predicate IsSpace(c: char) {
    var k := c as int;
    || 0x09 <= k <= 0x0D                     // tab, line feed, vertical tab, form feed, carriage return
    || k == 0x20 || k == 0xA0 || k == 0x1680 // space, no-break space, ogham space mark
    || 0x2000 <= k <= 0x200A                 // en quad .. hair space
    || k == 0x2028 || k == 0x2029            // line and paragraph separators
    || k == 0x202F || k == 0x205F || k == 0x3000
    || k == 0xFEFF                           // byte order mark
  }

  /** How many white-space characters `s` starts with. */
  function LeadingSpaces(s: string): (i: nat)
    ensures i <= |s|
    ensures forall k :: 0 <= k < i ==> IsSpace(s[k])
    ensures i < |s| ==> !IsSpace(s[i])
  {
    if s == [] || !IsSpace(s[0]) then 0
    else
      var i := 1 + LeadingSpaces(s[1..]);
      assert forall k :: 1 <= k < i ==> s[k] == s[1..][k - 1];
      i
  }

  /** Where the white space ending `s` begins, searching no further left than `lo`. */
  function TrailingSpacesFrom(s: string, lo: nat): (j: nat)
    requires lo <= |s|
    ensures lo <= j <= |s|
    ensures forall k :: j <= k < |s| ==> IsSpace(s[k])
    ensures j > lo ==> !IsSpace(s[j - 1])
    decreases |s|
  {
    if |s| == lo || !IsSpace(s[|s| - 1]) then |s|
    else
      var j := TrailingSpacesFrom(s[..|s| - 1], lo);
      assert forall k :: j <= k < |s| - 1 ==> s[k] == s[..|s| - 1][k];
      j
  }

  /**
   * The string with its leading and trailing white space removed, as
   * `String.prototype.trim` returns it.
   */
  function Trim(s: string): (r: string)
    ensures exists i, j :: && 0 <= i <= j <= |s| && r == s[i..j]
                           && (forall k :: 0 <= k < i ==> IsSpace(s[k]))
                           && (forall k :: j <= k < |s| ==> IsSpace(s[k]))
    ensures r == "" <==> forall i :: 0 <= i < |s| ==> IsSpace(s[i])
    ensures r != "" ==> !IsSpace(r[0]) && !IsSpace(r[|r| - 1])
  {
    var i := LeadingSpaces(s);
    var j := TrailingSpacesFrom(s, i);
    assert i < |s| ==> j > i;
    s[i..j]
  }

  datatype ServiceError = InvalidServiceFields   // "Please fill in name, duration ... and price ..."

  /**
   * `addService`: the name and category are trimmed, an empty category is
   * "Other"; the name must be non-blank, the duration a positive number and
   * the price a non-negative number. `duration` and `price` are the
   * `parseInt` results, `None` for NaN; `id` is the key the store assigns.
   */
  function NewService(id: string, name: string, duration: Option<int>, price: Option<int>,
                      requiresConfirmation: bool, category: string): (r: Result<Service, ServiceError>)
    ensures r.Success? <==>
              && (exists i :: 0 <= i < |name| && !IsSpace(name[i]))
              && duration.Some? && duration.value > 0
              && price.Some? && price.value >= 0
    ensures r.Success? ==> ValidService(r.value)
    ensures r.Success? ==>
              && r.value.name == Trim(name) && r.value.duration == duration.value
              && r.value.price == price.value && r.value.requiresConfirmation == requiresConfirmation
    ensures r.Success? ==> r.value.category == (if Trim(category) == "" then "Other" else Trim(category))
  {
    var n := Trim(name);
    if n == "" || duration.None? || duration.value == 0 || duration.value <= 0 || price.None? || price.value < 0 then
      Failure(InvalidServiceFields)
    else
      var c := Trim(category);
      Success(Service(id, n, if c == "" then "Other" else c, duration.value, price.value, requiresConfirmation))
  }
}
