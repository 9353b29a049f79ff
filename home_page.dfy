/**
  The lead-application form of the landing page: whether the dialog is open,
  the form fields, the arithmetic challenge ("captcha") and whether its answer
  is currently correct, with one method per event handler of the page.
  Every handler runs as one atomic update of the page state.
*/
module Page {
  import opened Wrappers
  import opened JsParseInt

  /** The eleven text-valued keys of the form state. */
  datatype TextField =
    | FirstName | LastName | Email | Phone | Company | Industry
    | FinancingType | Amount | TimeInBusiness | AnnualRevenue | Description

  /** The form state: eleven strings and the terms checkbox. */
  datatype FormData = FormData(
    firstName: string, lastName: string, email: string, phone: string,
    company: string, industry: string, financingType: string, amount: string,
    timeInBusiness: string, annualRevenue: string, description: string,
    agreeToTerms: bool)

  /** The initial form state, also restored after a successful submission. */
  const EmptyForm := FormData("", "", "", "", "", "", "", "", "", "", "", false)

  function Text(form: FormData, field: TextField): string {
    match field
    case FirstName => form.firstName
    case LastName => form.lastName
    case Email => form.email
    case Phone => form.phone
    case Company => form.company
    case Industry => form.industry
    case FinancingType => form.financingType
    case Amount => form.amount
    case TimeInBusiness => form.timeInBusiness
    case AnnualRevenue => form.annualRevenue
    case Description => form.description
  }

  /** A form state is determined by its text fields and its terms flag. */
  lemma FormsEqualByFields(a: FormData, b: FormData)
    requires forall f :: Text(a, f) == Text(b, f)
    requires a.agreeToTerms == b.agreeToTerms
    ensures a == b
  {
    assert Text(a, FirstName) == Text(b, FirstName);
    assert Text(a, LastName) == Text(b, LastName);
    assert Text(a, Email) == Text(b, Email);
    assert Text(a, Phone) == Text(b, Phone);
    assert Text(a, Company) == Text(b, Company);
    assert Text(a, Industry) == Text(b, Industry);
    assert Text(a, FinancingType) == Text(b, FinancingType);
    assert Text(a, Amount) == Text(b, Amount);
    assert Text(a, TimeInBusiness) == Text(b, TimeInBusiness);
    assert Text(a, AnnualRevenue) == Text(b, AnnualRevenue);
    assert Text(a, Description) == Text(b, Description);
  }

  /**
    The arguments of one call of the input handler: every text input and
    select passes its own key with a string, the terms checkbox passes
    "agreeToTerms" with a boolean.
  */
  datatype Edit = SetText(field: TextField, text: string) | SetAgreeToTerms(checked: bool)

  /** The state updater of the input handler: the named key gets the new value. */
  function ApplyEdit(form: FormData, edit: Edit): (updated: FormData)
    ensures forall f :: Text(updated, f) == if edit.SetText? && edit.field == f then edit.text else Text(form, f)
    ensures updated.agreeToTerms == if edit.SetAgreeToTerms? then edit.checked else form.agreeToTerms
  {
    match edit
    case SetAgreeToTerms(checked) => form.(agreeToTerms := checked)
    case SetText(field, text) =>
      match field
      case FirstName => form.(firstName := text)
      case LastName => form.(lastName := text)
      case Email => form.(email := text)
      case Phone => form.(phone := text)
      case Company => form.(company := text)
      case Industry => form.(industry := text)
      case FinancingType => form.(financingType := text)
      case Amount => form.(amount := text)
      case TimeInBusiness => form.(timeInBusiness := text)
      case AnnualRevenue => form.(annualRevenue := text)
      case Description => form.(description := text)
  }

  /** The challenge: two operands and the answer as typed. */
  datatype Captcha = Captcha(num1: int, num2: int, answer: string)

  /** The challenge held before the dialog is first opened and after a submission. */
  const ResetCaptcha := Captcha(0, 0, "")

  /**
    One operand, `Math.floor(Math.random() * 10) + 1`, given the number
    `random` in [0, 1) that Math.random returned.
  */
  function Operand(random: real): (n: int)
    requires 0.0 <= random < 1.0
    ensures 1 <= n <= 10
  {
    (random * 10.0).Floor + 1
  }

  /** Every operand from 1 to 10 can be drawn. */
  lemma EveryOperandDrawable(n: int)
    requires 1 <= n <= 10
    ensures 0.0 <= (n - 1) as real / 10.0 < 1.0
    ensures Operand((n - 1) as real / 10.0) == n
  {
  }

  predicate OperandsDrawn(c: Captcha) {
    1 <= c.num1 <= 10 && 1 <= c.num2 <= 10
  }

  /** The answer check `Number.parseInt(answer) === num1 + num2`. */
  predicate IsCorrect(c: Captcha)
    ensures IsCorrect(c) ==> exists i :: 0 <= i < |c.answer| && IsRadixDigit(c.answer[i], 10)
  {
    ParseInt(c.answer) == Some(c.num1 + c.num2)
  }

  /** A decimal answer is accepted exactly when it is the sum of the operands. */
  lemma DecimalAnswerCorrect(c: Captcha, k: int)
    requires c.answer == IntToDecimal(k)
    ensures IsCorrect(c) <==> k == c.num1 + c.num2
  {
    ParseIntOfDecimal([], k, []);
    assert [] + IntToDecimal(k) + [] == c.answer;
  }

  /** What the page tells the user on submission (the two alerts). */
  datatype Notice = SolveChallengeAlert | ThankYouAlert

  class HomePage {
    var isFormOpen: bool
    var formData: FormData
    var captcha: Captcha
    var captchaValid: bool
    /** The form snapshots handed to the (logging-only) delivery, oldest first. */
    ghost var submitted: seq<FormData>

    /**
      The validity flag always agrees with the answer check on the current
      challenge; the operands are either the reset pair (0, 0) or both drawn
      from [1, 10], and while the dialog is open they are drawn.
    */
    ghost predicate Valid()
      reads this
      ensures Valid() && isFormOpen ==> 2 <= captcha.num1 + captcha.num2 <= 20
      ensures Valid() && captchaValid ==> captcha.answer != ""
    {
      captchaValid == IsCorrect(captcha) &&
      (OperandsDrawn(captcha) || (captcha.num1 == 0 && captcha.num2 == 0)) &&
      (isFormOpen ==> OperandsDrawn(captcha))
    }

    /** The page state as first rendered. */
    constructor ()
      ensures Valid()
      ensures !isFormOpen && formData == EmptyForm
      ensures captcha == ResetCaptcha && !captchaValid
      ensures submitted == []
    {
      isFormOpen := false;
      formData := EmptyForm;
      captcha := ResetCaptcha;
      captchaValid := false;
      submitted := [];
      assert ParseInt("") == None;
    }

    /**
      The submit button is enabled: on a valid page, exactly when the terms
      are accepted and the answer reads as the sum.
    */
    predicate SubmitEnabled()
      reads this
      ensures Valid() ==>
        (SubmitEnabled() <==> formData.agreeToTerms && ParseInt(captcha.answer) == Some(captcha.num1 + captcha.num2))
    {
      formData.agreeToTerms && captchaValid
    }

    /** A new challenge from two values of Math.random; also the "New" button. */
    method GenerateCaptcha(random1: real, random2: real)
      requires 0.0 <= random1 < 1.0 && 0.0 <= random2 < 1.0
      modifies this`captcha, this`captchaValid
      ensures Valid()
      ensures captcha == Captcha(Operand(random1), Operand(random2), "")
      ensures OperandsDrawn(captcha) && captcha.answer == "" && !captchaValid
      ensures formData == old(formData) && isFormOpen == old(isFormOpen)
    {
      var num1 := Operand(random1);
      var num2 := Operand(random2);
      captcha := Captcha(num1, num2, "");
      captchaValid := false;
      assert ParseInt("") == None;
    }

    /** The dialog's open-change handler: opening draws a new challenge, closing changes nothing else. */
    method HandleFormOpen(open: bool, random1: real, random2: real)
      requires Valid()
      requires 0.0 <= random1 < 1.0 && 0.0 <= random2 < 1.0
      modifies this`isFormOpen, this`captcha, this`captchaValid
      ensures Valid() && isFormOpen == open
      ensures open ==> captcha == Captcha(Operand(random1), Operand(random2), "") && !captchaValid
      ensures !open ==> captcha == old(captcha) && captchaValid == old(captchaValid)
      ensures formData == old(formData)
    {
      isFormOpen := open;
      if open {
        GenerateCaptcha(random1, random2);
      }
    }

    /** Typing in the answer box: the text is kept verbatim and checked against the current operands. */
    method HandleCaptchaChange(value: string)
      requires Valid()
      modifies this`captcha, this`captchaValid
      ensures Valid()
      ensures captcha == old(captcha).(answer := value)
      ensures captchaValid <==> ParseInt(value) == Some(old(captcha.num1) + old(captcha.num2))
      ensures formData == old(formData) && isFormOpen == old(isFormOpen)
    {
      captcha := captcha.(answer := value);
      var correctAnswer := captcha.num1 + captcha.num2;
      captchaValid := ParseInt(value) == Some(correctAnswer);
    }

    /** Editing one form control. */
    method HandleInputChange(edit: Edit)
      requires Valid()
      modifies this`formData
      ensures Valid()
      ensures formData == ApplyEdit(old(formData), edit)
      ensures captcha == old(captcha) && captchaValid == old(captchaValid) && isFormOpen == old(isFormOpen)
    {
      formData := ApplyEdit(formData, edit);
    }

    /**
      Submitting the form. Only the challenge is checked: with a wrong answer
      nothing changes; otherwise the form is delivered and everything is
      reset, whether or not the terms box is ticked.
    */
    method HandleSubmit() returns (notice: Notice)
      requires Valid()
      modifies this`isFormOpen, this`formData, this`captcha, this`captchaValid, this`submitted
      ensures Valid()
      ensures notice == ThankYouAlert <==> old(captchaValid)
      ensures !old(captchaValid) ==> unchanged(this)
      ensures old(captchaValid) ==>
        && submitted == old(submitted) + [old(formData)]
        && !isFormOpen && formData == EmptyForm
        && captcha == ResetCaptcha && !captchaValid
    {
      if !captchaValid {
        notice := SolveChallengeAlert;
        return;
      }
      submitted := submitted + [formData];
      notice := ThankYouAlert;
      isFormOpen := false;
      formData := EmptyForm;
      captcha := ResetCaptcha;
      captchaValid := false;
      assert ParseInt("") == None;
    }

    /** The Cancel button: the dialog closes and the form keeps its contents. */
    method Cancel()
      requires Valid()
      modifies this`isFormOpen
      ensures Valid() && !isFormOpen
      ensures formData == old(formData) && captcha == old(captcha) && captchaValid == old(captchaValid)
    {
      isFormOpen := false;
    }
  }

  /** With no radix, parseInt reads hexadecimal after "0x": "0x7" passes for 3 + 4. */
  lemma HexAnswerAccepted()
    ensures IsCorrect(Captcha(3, 4, "0x7"))
  {
  }

  /** parseInt skips leading white space and a plus sign and stops at the decimal point. */
  lemma DecoratedAnswerAccepted()
    ensures IsCorrect(Captcha(3, 4, " +7.9"))
  {
  }

  /** parseInt stops at the exponent marker: "1e1" reads as 1, not 10. */
  lemma ExponentAnswerRejected()
    ensures !IsCorrect(Captcha(4, 6, "1e1"))
  {
  }

  /** A session with the challenge 3 + 4: a right answer, a wrong one, then a new challenge. */
  method ChallengeScenario()
  {
    var page := new HomePage();
    page.HandleFormOpen(true, 0.25, 0.35);
    assert page.captcha == Captcha(3, 4, "");

    page.HandleCaptchaChange("7");
    DecimalAnswerCorrect(page.captcha, 7);
    assert page.captchaValid && !page.SubmitEnabled();

    page.HandleCaptchaChange("8");
    DecimalAnswerCorrect(page.captcha, 8);
    assert !page.captchaValid;

    page.GenerateCaptcha(0.0, 0.95);
    assert page.captcha == Captcha(1, 10, "") && !page.captchaValid;
    assert page.isFormOpen;
  }

  /** A submission with a solved challenge goes through even though the terms box is not ticked. */
  method SubmitScenario()
  {
    var page := new HomePage();
    page.HandleFormOpen(true, 0.0, 0.95);
    page.HandleInputChange(SetText(Company, "Acme Freight"));
    var filled := EmptyForm.(company := "Acme Freight");
    FormsEqualByFields(page.formData, filled);
    page.HandleCaptchaChange("11");
    DecimalAnswerCorrect(page.captcha, 11);
    assert page.captchaValid && !page.formData.agreeToTerms;

    var notice := page.HandleSubmit();
    assert notice == ThankYouAlert;
    assert page.submitted == [filled];
    assert !page.isFormOpen && page.formData == EmptyForm && page.captcha == ResetCaptcha;
  }
}
