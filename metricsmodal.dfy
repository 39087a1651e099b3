/**
 * The "Manage Measures" dialog: the set of chosen extra metrics, kept in
 * insertion order as a JavaScript `Set` keeps it.
 */
module MetricsModal {
  import opened Registry

  /** `s.delete(x)`: the elements other than `x`, in order. */
  function Remove(s: seq<string>, x: string): (r: seq<string>)
    ensures forall y :: y in r <==> y in s && y != x
    ensures Distinct(s) ==> Distinct(r)
    ensures x !in s ==> r == s
  {
    if s == [] then []
    else if s[0] == x then Remove(s[1..], x)
    else
      var rest := Remove(s[1..], x);
      assert Distinct(s) ==> s[0] !in s[1..];
      [s[0]] + rest
  }

  /** In a set, deleting a name takes out its one position and keeps the others in order. */
  lemma {:induction false} RemoveAt(s: seq<string>, x: string, k: nat)
    requires Distinct(s) && k < |s| && s[k] == x
    ensures Remove(s, x) == s[..k] + s[k + 1..]
  {
    if k == 0 {
      assert x !in s[1..];
      assert s[..0] + s[1..] == s[1..];
    } else {
      assert s[0] != x;
      assert Distinct(s[1..]);
      RemoveAt(s[1..], x, k - 1);
      assert s[1..][..k - 1] == s[1..k] && s[1..][k..] == s[k + 1..];
      assert [s[0]] + (s[1..k] + s[k + 1..]) == s[..k] + s[k + 1..];
    }
  }

  /** `s.add(x)`: appended at the end unless already present. */
  function Add(s: seq<string>, x: string): (r: seq<string>)
    ensures forall y :: y in r <==> y in s || y == x
    ensures Distinct(s) ==> Distinct(r)
    ensures x in s ==> r == s
    ensures x !in s ==> r == s + [x]
  {
    if x in s then s else s + [x]
  }

  /** `new Set(xs)`: the first occurrence of each element, in order. */
  function FromList(xs: seq<string>): (r: seq<string>)
    ensures Distinct(r)
    ensures forall y :: y in r <==> y in xs
    ensures Distinct(xs) ==> r == xs
  {
    if xs == [] then []
    else
      var init := xs[..|xs| - 1];
      assert forall y :: y in init ==> y in xs;
      assert xs == init + [xs[|xs| - 1]];
      Add(FromList(init), xs[|xs| - 1])
  }

  /** `handleToggle`: remove the name when present, add it otherwise. */
  function Toggle(s: seq<string>, x: string): (r: seq<string>)
    ensures x in r <==> x !in s
    ensures forall y :: y != x ==> (y in r <==> y in s)
    ensures Distinct(s) ==> Distinct(r)
  {
    if x in s then Remove(s, x) else Add(s, x)
  }

  /** Toggling a name twice gives back the same set; when the name was absent, the very same list. */
  lemma ToggleTwice(s: seq<string>, x: string)
    requires Distinct(s)
    ensures forall y :: y in Toggle(Toggle(s, x), x) <==> y in s
    ensures x !in s ==> Toggle(Toggle(s, x), x) == s
  {
    if x !in s {
      RemoveLast(s, x);
    }
  }

  lemma {:induction false} RemoveLast(s: seq<string>, x: string)
    requires x !in s
    ensures Remove(s + [x], x) == s
  {
    if s != [] {
      assert (s + [x])[1..] == s[1..] + [x];
      RemoveLast(s[1..], x);
    }
  }

  /** The dialog's state: the chosen names. */
  class Dialog {
    var selected: seq<string>

    ghost predicate Valid()
      reads this
    {
      Distinct(selected)
    }

    /** The selection starts as the set of the initially chosen names. */
    constructor(initial: seq<string>)
      ensures Valid() && selected == FromList(initial)
    {
      selected := FromList(initial);
    }

    /** The effect run when the initially chosen names change: the selection is reset to them. */
    method Resync(initial: seq<string>)
      modifies this`selected
      ensures Valid() && selected == FromList(initial)
    {
      selected := FromList(initial);
    }

    method HandleToggle(name: string)
      requires Valid()
      modifies this`selected
      ensures Valid() && selected == Toggle(old(selected), name)
    {
      selected := Toggle(selected, name);
    }

    /** `handleSave`: the chosen names in insertion order, each once. */
    method HandleSave() returns (names: seq<string>)
      requires Valid()
      ensures names == selected && Distinct(names)
    {
      names := selected;
    }
  }
}
