/** The `full_name` rule shared by Patient, User and UserResponse. */
module Naming {
  import opened Wrappers
  import opened Text

  /** FHIR `HumanName.given`: the first name, then the middle name when it is truthy. */
  function GivenNames(first: string, middle: Option<string>): (r: seq<string>)
    ensures |r| == if Truthy(middle) then 2 else 1
    ensures r[0] == first
    ensures Truthy(middle) ==> r[1] == middle.value
  {
    [first] + (if Truthy(middle) then [middle.value] else [])
  }

  /** `full_name`: "first middle last" when the middle name is truthy, else "first last". */
  function FullName(first: string, middle: Option<string>, last: string): (r: string)
    ensures r == Join(GivenNames(first, middle) + [last], " ")
  {
    if Truthy(middle) then
      var parts := [first, middle.value, last];
      assert parts[1..][1..] == [last];
      assert Join(parts[1..], " ") == middle.value + " " + last;
      assert GivenNames(first, middle) + [last] == parts;
      first + " " + middle.value + " " + last
    else
      assert GivenNames(first, middle) + [last] == [first, last];
      first + " " + last
  }

  /** When no name part contains a space, the full name splits on spaces back
      into exactly the given names followed by the family name. */
  lemma FullNameWords(first: string, middle: Option<string>, last: string)
    requires ' ' !in first && ' ' !in last
    requires middle.Some? ==> ' ' !in middle.value
    ensures Split(FullName(first, middle, last), ' ') == GivenNames(first, middle) + [last]
  {
    var parts := GivenNames(first, middle) + [last];
    SplitJoin(parts, ' ');
  }
}
