/**
 * The profile form shared by the onboarding and edit-profile screens: the
 * typed fields, the chosen gender and photo, and the in-flight flag that
 * blocks a second submission.
 */
module ProfileForm {
  import opened Optional
  import opened Text
  import opened HealthTypes

  /** The form's state; `gender` is `None` until one is chosen. */
  class Form {
    var name: string
    var age: string
    var gender: Option<Gender>
    var photo: Option<string>
    var isLoading: bool

    /** The onboarding screen starts empty. */
    constructor Blank()
      ensures name == "" && age == "" && gender.None? && photo.None? && !isLoading
    {
      name, age, gender, photo, isLoading := "", "", None, None, false;
    }

    /** The edit-profile screen starts from the current user, with empty fields when there is none. */
    constructor FromUser(user: Option<UserProfile>)
      ensures user.None? ==> name == "" && age == "" && gender.None? && photo.None?
      ensures user.Some? ==> name == user.value.name && age == user.value.age && gender == Some(user.value.gender)
      ensures user.Some? ==> photo == (if user.value.photo == Some("") then None else user.value.photo)
      ensures !isLoading
    {
      isLoading := false;
      match user
      case None =>
        name, age, gender, photo := "", "", None, None;
      case Some(u) =>
        name, age, gender := u.name, u.age, Some(u.gender);
        photo := if u.photo == Some("") then None else u.photo;
    }

    /** `name.trim() && age.trim() && gender && !isLoading` */
    predicate CanSubmit()
      reads this
    {
      !IsBlank(name) && !IsBlank(age) && gender.Some? && !isLoading
    }

    /** The submit button's `disabled` condition. */
    function SubmitDisabled(): (d: bool)
      reads this
      ensures d <==> !CanSubmit()
    {
      IsBlank(name) || IsBlank(age) || gender.None? || isLoading
    }

    /** The inputs are disabled while a submission is in flight, so a change is dropped then. */
    method Edit(newName: string, newAge: string, newGender: Option<Gender>)
      modifies this`name, this`age, this`gender
      ensures isLoading ==> name == old(name) && age == old(age) && gender == old(gender)
      ensures !isLoading ==> name == newName && age == newAge && gender == newGender
    {
      if !isLoading {
        name, age, gender := newName, newAge, newGender;
      }
    }

    /** A photo can be picked only while no submission is in flight. */
    method PickPhoto(dataUrl: string)
      modifies this`photo
      ensures photo == if isLoading then old(photo) else Some(dataUrl)
    {
      if !isLoading {
        photo := Some(dataUrl);
      }
    }

    /**
     * `handleSubmit`: when the guard holds, sets the in-flight flag and
     * hands over the trimmed name and age with the gender and photo; after
     * that the guard rejects every further submission.
     */
    method Submit() returns (sent: Option<UserProfile>)
      modifies this`isLoading
      ensures !old(CanSubmit()) ==> sent.None? && isLoading == old(isLoading)
      ensures (old(CanSubmit()) ==>
        && isLoading
        && sent == Some(UserProfile(Trim(name), Trim(age), gender.value, photo)))
      ensures sent.Some? ==> sent.value.name != "" && sent.value.age != "" && !CanSubmit()
    {
      if IsBlank(name) || IsBlank(age) || gender.None? || isLoading {
        return None;
      }
      isLoading := true;
      sent := Some(UserProfile(Trim(name), Trim(age), gender.value, photo));
    }
  }
}
