/**
 * The user profile: how it is written to and read back from the browser's
 * key-value storage, and the display name and e-mail derived from it.
 */
module Profile {
  import opened Optional
  import opened Text
  import opened HealthTypes

  /** The browser's local storage, as a map from key to text. */
  type Storage = map<string, string>

  /** `localStorage.getItem(k)`, where `null` and the empty text both read as missing (falsy). */
  function Truthy(st: Storage, k: string): (r: Option<string>)
    ensures r.Some? <==> k in st && st[k] != ""
    ensures r.Some? ==> r.value == st[k]
  {
    if k in st && st[k] != "" then Some(st[k]) else None
  }

  /** The stored gender text read back; the app only ever stores the three names. */
  function GenderFromText(s: string): (g: Gender)
    ensures s == g.Name() || (g == Other && s != "male" && s != "female")
  {
    if s == "male" then Male else if s == "female" then Female else Other
  }

  /** Writes the profile's fields; an absent or empty photo removes the stored one. */
  function StoreProfile(st: Storage, p: UserProfile): (st': Storage)
    ensures "userName" in st' && "userAge" in st' && "userGender" in st'
    ensures st'["userName"] == p.name && st'["userAge"] == p.age && st'["userGender"] == p.gender.Name()
    ensures p.photo.Some? && p.photo.value != "" ==> "userPhoto" in st' && st'["userPhoto"] == p.photo.value
    ensures !(p.photo.Some? && p.photo.value != "") ==> "userPhoto" !in st'
    ensures forall k :: k in st && k !in {"userName", "userAge", "userGender", "userPhoto"} ==> k in st' && st'[k] == st[k]
  {
    var st1 := st["userName" := p.name]["userAge" := p.age]["userGender" := p.gender.Name()];
    if p.photo.Some? && p.photo.value != "" then st1["userPhoto" := p.photo.value] else st1 - {"userPhoto"}
  }

  /** What onboarding writes: the completion flag, then the profile. */
  function StoreOnboarding(st: Storage, p: UserProfile): (st': Storage)
    ensures "onboardingComplete" in st' && st'["onboardingComplete"] == "true"
  {
    StoreProfile(st["onboardingComplete" := "true"], p)
  }

  /**
   * The profile read at start-up, or `None` when onboarding has not been
   * completed: name defaults to "User", age to "", gender to other and
   * photo to none.
   */
  function Restore(st: Storage): (p: Option<UserProfile>)
    ensures p.Some? <==> Truthy(st, "onboardingComplete").Some?
    ensures p.Some? ==> p.value.name != ""
  {
    if Truthy(st, "onboardingComplete").None? then None
    else Some(UserProfile(
      Truthy(st, "userName").GetOr("User"),
      Truthy(st, "userAge").GetOr(""),
      match Truthy(st, "userGender") case Some(s) => GenderFromText(s) case None => Other,
      Truthy(st, "userPhoto")))
  }

  /**
   * A profile written at onboarding is read back unchanged, provided its
   * name is non-empty and its photo, if any, is non-empty.
   */
  lemma RestoreAfterOnboarding(st: Storage, p: UserProfile)
    requires p.name != ""
    requires p.photo.Some? ==> p.photo.value != ""
    ensures Restore(StoreOnboarding(st, p)) == Some(p)
  {
    var st' := StoreOnboarding(st, p);
    assert GenderFromText(p.gender.Name()) == p.gender;
    if p.age == "" {
      assert Truthy(st', "userAge") == None;
    }
  }

  /** A profile update keeps the completion flag, so the updated profile is what the next start reads. */
  lemma RestoreAfterUpdate(st: Storage, p: UserProfile)
    requires Truthy(st, "onboardingComplete").Some?
    requires p.name != ""
    requires p.photo.Some? ==> p.photo.value != ""
    ensures Restore(StoreProfile(st, p)) == Some(p)
  {
    var st' := StoreProfile(st, p);
    assert GenderFromText(p.gender.Name()) == p.gender;
    if p.age == "" {
      assert Truthy(st', "userAge") == None;
    }
  }

  /** `(s && s.charAt(0).toUpperCase() + s.slice(1)) || ''` */
  function Capitalize(s: string): (r: string)
    ensures |r| == |s|
    ensures s != "" ==> r[0] == UpperAscii(s[0]) && r[1..] == s[1..]
  {
    if s == "" then "" else [UpperAscii(s[0])] + s[1..]
  }

  /** The name shown in the app: the profile's name or "User", capitalised. */
  function DisplayName(p: Option<UserProfile>): (r: string)
    ensures r != ""
    ensures !(p.Some? && p.value.name != "") ==> r == "User"
    ensures p.Some? && p.value.name != "" ==>
      |r| == |p.value.name| && r[0] == UpperAscii(p.value.name[0]) && r[1..] == p.value.name[1..]
  {
    var raw := if p.Some? && p.value.name != "" then p.value.name else "User";
    Capitalize(raw)
  }

  /** `${name.replace(/\s+/g, '.').toLowerCase()}@example.com` */
  function Email(name: string): (r: string)
    ensures |r| >= 12 && r[|r| - 12..] == "@example.com"
    ensures r[..|r| - 12] == LowerAsciiString(ReplaceWhitespaceRuns(name, "."))
    ensures forall i :: 0 <= i < |r| ==> !IsWhitespace(r[i])
  {
    var dotted := ReplaceWhitespaceRuns(name, ".");
    var local := LowerAsciiString(dotted);
    assert !IsWhitespace('.');
    LowerKeepsNonWhitespace(dotted);
    DomainHasNoWhitespace();
    NoWhitespaceAppend(local, "@example.com");
    local + "@example.com"
  }

  /** A first and a last name apart by white space give `first.last@example.com`, lower-cased. */
  lemma EmailOfTwoWords(first: string, gap: string, last: string)
    requires NoWhitespace(first) && NoWhitespace(last)
    requires gap != [] && AllWhitespace(gap)
    ensures Email(first + gap + last) == LowerAsciiString(first) + "." + LowerAsciiString(last) + "@example.com"
  {
    var name := first + gap + last;
    var dotted := first + "." + last;
    TwoWords(first, gap, last, ".");
    var r := Email(name);
    assert r == r[..|r| - 12] + r[|r| - 12..];
    assert r[..|r| - 12] == LowerAsciiString(dotted);
    LowerAsciiAppend(first + ".", last);
    LowerAsciiAppend(first, ".");
    assert LowerAsciiString(".") == ".";
  }

  lemma LowerAsciiAppend(a: string, b: string)
    ensures LowerAsciiString(a + b) == LowerAsciiString(a) + LowerAsciiString(b)
  {
    var l, r := LowerAsciiString(a + b), LowerAsciiString(a) + LowerAsciiString(b);
    assert |l| == |r|;
    forall i | 0 <= i < |l| ensures l[i] == r[i] {
      if i < |a| {
        assert (a + b)[i] == a[i];
      } else {
        assert (a + b)[i] == b[i - |a|];
      }
    }
  }

  lemma DomainHasNoWhitespace()
    ensures forall i :: 0 <= i < |"@example.com"| ==> !IsWhitespace("@example.com"[i])
  {
  }

  lemma NoWhitespaceAppend(a: string, b: string)
    requires forall i :: 0 <= i < |a| ==> !IsWhitespace(a[i])
    requires forall i :: 0 <= i < |b| ==> !IsWhitespace(b[i])
    ensures forall i :: 0 <= i < |a + b| ==> !IsWhitespace((a + b)[i])
  {
    forall i | 0 <= i < |a + b| ensures !IsWhitespace((a + b)[i]) {
      if i >= |a| {
        assert (a + b)[i] == b[i - |a|];
      }
    }
  }

  lemma LowerKeepsNonWhitespace(s: string)
    requires forall i :: 0 <= i < |s| ==> !IsWhitespace(s[i])
    ensures forall i :: 0 <= i < |s| ==> !IsWhitespace(LowerAsciiString(s)[i])
  {
  }
}
