/**
 * The default avatar chosen at onboarding when no photo is supplied: a
 * string hash of name+age picks one of the four avatars of the gender's list.
 */
module Avatar {
  import opened Optional
  import opened HealthTypes
  import opened Registry

  const TwoTo31: int := 0x8000_0000
  const TwoTo32: int := 0x1_0000_0000

  /** The ECMAScript ToInt32 conversion of an integral number. */
  function ToInt32(x: int): (r: int)
    ensures -TwoTo31 <= r < TwoTo31
    ensures (r - x) % TwoTo32 == 0
  {
    (x + TwoTo31) % TwoTo32 - TwoTo31
  }

  lemma ToInt32Identity(x: int)
    requires -TwoTo31 <= x < TwoTo31
    ensures ToInt32(x) == x
  {
  }

  /** One round of the loop: `hash = c + ((hash << 5) - hash)`; only the shift works on 32 bits. */
  function HashStep(hash: int, c: char): int {
    c as int + ToInt32(ToInt32(hash) * 32) - hash
  }

  /** The hash of `key`, one character at a time from the left, starting from 0. */
  function HashOf(key: string): int {
    if key == [] then 0 else HashStep(HashOf(key[..|key| - 1]), key[|key| - 1])
  }

  /**
   * The hash grows by less than 2^32 per character, so it stays an exact
   * integer in a double for every key shorter than 2^21 characters.
   */
  lemma {:induction false} HashBound(key: string)
    ensures -|key| * TwoTo32 <= HashOf(key) <= |key| * TwoTo32
  {
    if key != [] {
      HashBound(key[..|key| - 1]);
    }
  }

  /** The hash loop over the characters of `key`. */
  method StringHash(key: string) returns (hash: int)
    ensures hash == HashOf(key)
  {
    hash := 0;
    var i := 0;
    while i < |key|
      invariant 0 <= i <= |key|
      invariant hash == HashOf(key[..i])
    {
      assert key[..i + 1][..i] == key[..i];
      hash := HashStep(hash, key[i]);
      i := i + 1;
    }
    assert key[..|key|] == key;
  }

  function Abs(x: int): (r: nat)
    ensures r == x || r == -x
  {
    if x < 0 then -x else x
  }

  /** `Math.abs(hash) % list.length` */
  function AvatarIndex(hash: int, len: nat): (i: nat)
    requires len > 0
    ensures i < len
  {
    Abs(hash) % len
  }

  /** A photo counts as supplied when it is present and not the empty string. */
  predicate HasPhoto(photo: Option<string>) {
    photo.Some? && photo.value != ""
  }

  /** The photo stored at onboarding: the supplied one, or the avatar the hash of name+age picks. */
  function AvatarFor(name: string, age: string, g: Gender, photo: Option<string>): (r: string)
    ensures HasPhoto(photo) ==> r == photo.value
    ensures !HasPhoto(photo) ==> r == AvatarList(g)[AvatarIndex(HashOf(name + age), 4)]
    ensures r != ""
  {
    if HasPhoto(photo) then photo.value
    else AvatarList(g)[AvatarIndex(HashOf(name + age), |AvatarList(g)|)]
  }

  /** Without a photo the choice is one of the gender's avatars; `Other` is the default list. */
  lemma AvatarFromGenderList(name: string, age: string, g: Gender, photo: Option<string>)
    requires !HasPhoto(photo)
    ensures AvatarFor(name, age, g, photo) in AvatarList(g)
  {
  }

  /** The avatar choice in `handleOnboardingComplete`. */
  method ChooseAvatar(name: string, age: string, g: Gender, photo: Option<string>) returns (finalPhoto: string)
    ensures finalPhoto == AvatarFor(name, age, g, photo)
  {
    if HasPhoto(photo) {
      finalPhoto := photo.value;
    } else {
      var list := AvatarList(g);
      var hash := StringHash(name + age);
      finalPhoto := list[AvatarIndex(hash, |list|)];
    }
  }

  /** The hash of "ab" is 98 + 31 * 97; no wrap-around happens for short keys. */
  lemma HashSample()
    ensures HashOf("a") == 97
    ensures HashOf("ab") == 3105
  {
    assert "ab"[..1] == "a";
    assert "a"[..0] == "";
  }

  /** The shift wraps: a hash of 2^27 shifts to 2^32, which is 0 on 32 bits. */
  lemma HashStepWraps()
    ensures HashStep(0x800_0000, 'a') == 97 - 0x800_0000
  {
  }
}
