/** The three-step sign-up wizard: name and slogan, then the kind of place,
    then address, phone and Wi-Fi. 'Continuar' is disabled while the
    current step is invalid; the last step hands the profile over. */
module Signup {
  import opened Types
  import opened Text

  /** The kinds of place offered on step 2. */
  const PLACE_KINDS: seq<string> := ["Restaurante", "Bar / Esplanada", "Café / Pastelaria", "Fast Food", "Churrascaria"]

  const INITIAL_FORM: RestaurantInfo :=
    RestaurantInfo("", Some(""), Some("Restaurante"), "", "", Some(""), Some(""))

  /** `isStepValid`: a name longer than two UTF-16 code units on step 1,
      nothing on step 2, a non-empty address on step 3, and no other step.
      Two characters are the least that passes step 1 (two emoji do), and
      three always do. */
  predicate IsStepValid(step: int, form: RestaurantInfo): (ok: bool)
    ensures ok ==> 1 <= step <= 3
    ensures step == 1 && ok ==> |form.name| >= 2
    ensures step == 1 && |form.name| >= 3 ==> ok
    ensures step == 2 ==> ok
    ensures step == 3 ==> (ok <==> form.address != "")
  {
    if step == 1 then Utf16Length(form.name) > 2
    else if step == 2 then true
    else if step == 3 then Utf16Length(form.address) > 0
    else false
  }

  /** What pressing 'Continuar' / 'Finalizar Cadastro' does. */
  datatype NextResult = Disabled | Advanced | Finished(info: RestaurantInfo)

  /** What the back arrow does. */
  datatype BackResult = SteppedBack | Cancelled

  class Registration {
    var step: int
    var formData: RestaurantInfo

    /** The step stays in 1..3, the kind is one of the listed ones, and any
        step past the first was reached with a valid name. */
    ghost predicate Valid()
      reads this
    {
      && 1 <= step <= 3
      && formData.category.Some? && formData.category.value in PLACE_KINDS
      && (step >= 2 ==> Utf16Length(formData.name) > 2)
    }

    constructor ()
      ensures Valid() && step == 1 && formData == INITIAL_FORM
    {
      step := 1;
      formData := INITIAL_FORM;
    }

    /** The name input, shown on step 1 only. */
    method SetName(name: string)
      requires Valid()
      modifies this`formData
      ensures Valid()
      ensures formData == if step == 1 then old(formData).(name := name) else old(formData)
    {
      if step == 1 {
        formData := formData.(name := name);
      }
    }

    /** The slogan input, shown on step 1 only. */
    method SetSlogan(slogan: string)
      requires Valid()
      modifies this`formData
      ensures Valid()
      ensures formData == if step == 1 then old(formData).(slogan := Some(slogan)) else old(formData)
    {
      if step == 1 {
        formData := formData.(slogan := Some(slogan));
      }
    }

    /** The kind buttons of step 2, one per entry of the list. */
    method ChooseKind(index: nat)
      requires Valid() && index < |PLACE_KINDS|
      modifies this`formData
      ensures Valid()
      ensures formData == if step == 2 then old(formData).(category := Some(PLACE_KINDS[index])) else old(formData)
    {
      if step == 2 {
        formData := formData.(category := Some(PLACE_KINDS[index]));
      }
    }

    /** The address input, shown on step 3 only. */
    method SetAddress(address: string)
      requires Valid()
      modifies this`formData
      ensures Valid()
      ensures formData == if step == 3 then old(formData).(address := address) else old(formData)
    {
      if step == 3 {
        formData := formData.(address := address);
      }
    }

    /** The phone input, shown on step 3 only. */
    method SetPhone(phone: string)
      requires Valid()
      modifies this`formData
      ensures Valid()
      ensures formData == if step == 3 then old(formData).(phone := phone) else old(formData)
    {
      if step == 3 {
        formData := formData.(phone := phone);
      }
    }

    /** The Wi-Fi network input, shown on step 3 only. */
    method SetWifiName(wifiName: string)
      requires Valid()
      modifies this`formData
      ensures Valid()
      ensures formData == if step == 3 then old(formData).(wifiName := Some(wifiName)) else old(formData)
    {
      if step == 3 {
        formData := formData.(wifiName := Some(wifiName));
      }
    }

    /** The Wi-Fi password input, shown on step 3 only. */
    method SetWifiPassword(wifiPassword: string)
      requires Valid()
      modifies this`formData
      ensures Valid()
      ensures formData == if step == 3 then old(formData).(wifiPassword := Some(wifiPassword)) else old(formData)
    {
      if step == 3 {
        formData := formData.(wifiPassword := Some(wifiPassword));
      }
    }

    /** The main button: disabled while the step is invalid; otherwise
        `handleNext` moves to the next step, or on step 3 completes with
        the form. */
    method Next() returns (r: NextResult)
      requires Valid()
      modifies this`step
      ensures Valid()
      ensures !IsStepValid(old(step), formData) ==> r == Disabled && step == old(step)
      ensures IsStepValid(old(step), formData) && old(step) < 3 ==> r == Advanced && step == old(step) + 1
      ensures IsStepValid(old(step), formData) && old(step) == 3 ==> r == Finished(formData) && step == 3
      ensures r.Finished? ==>
        && Utf16Length(r.info.name) > 2 && r.info.address != ""
        && r.info.category.Some? && r.info.category.value in PLACE_KINDS
    {
      if !IsStepValid(step, formData) {
        return Disabled;
      }
      if step < 3 {
        step := step + 1;
        r := Advanced;
      } else {
        r := Finished(formData);
      }
    }

    /** The back arrow: `handleBack` goes one step back, or on step 1
        cancels the wizard. */
    method Back() returns (r: BackResult)
      requires Valid()
      modifies this`step
      ensures Valid()
      ensures old(step) > 1 ==> r == SteppedBack && step == old(step) - 1
      ensures old(step) == 1 ==> r == Cancelled && step == 1
    {
      if step > 1 {
        step := step - 1;
        r := SteppedBack;
      } else {
        r := Cancelled;
      }
    }
  }

  /** A short name blocks step 1; a longer one gets through, and the wizard
      completes only once an address is given. */
  method WizardScenario()
  {
    var w := new Registration();
    Utf16LengthOfBmp("Ab");
    w.SetName("Ab");
    var r := w.Next();
    assert r == Disabled && w.step == 1;
    w.SetName("Abc");
    r := w.Next();
    assert r == Advanced && w.step == 2;
    w.SetName("");
    assert w.formData.name == "Abc";
    r := w.Next();
    assert r == Advanced && w.step == 3;
    r := w.Next();
    assert r == Disabled;
    w.SetAddress("Talatona");
    r := w.Next();
    assert r.Finished? && r.info.name == "Abc" && r.info.address == "Talatona";
  }

  /** A single emoji is two code units and is refused; two emoji are four
      and get past step 1. */
  method EmojiNameScenario()
  {
    var w := new Registration();
    w.SetName("\U{1F355}");
    var r := w.Next();
    assert r == Disabled;
    Utf16LengthAppend("\U{1F355}", "\U{1F355}");
    w.SetName("\U{1F355}" + "\U{1F355}");
    r := w.Next();
    assert r == Advanced && w.step == 2;
  }
}
