# Lead-application form of the Avion Capital landing page

The landing page (`HomePage` in `app/page.tsx`) has one piece of real state
handling: the "Apply for Financing" dialog. The page holds four pieces of state:

- whether the dialog is open;
- the form data: eleven strings and the terms checkbox;
- an arithmetic challenge ("captcha"): two operands and the typed answer;
- whether the typed answer is correct.

Event handlers change that state:

- opening or closing the dialog (opening draws a new challenge);
- the "New" button;
- typing an answer;
- editing a form control;
- submitting;
- Cancel.

The page also has two pure pieces: the rule that enables the submit button,
and the step of the image carousel's slide index.

The Dafny project models this as follows:

- `wrappers.dfy`: module `Wrappers`, an `Option` type. `None` stands for
  JavaScript's NaN.
- `js_parse_int.dfy`: module `JsParseInt`, the ECMAScript global `parseInt`
  (ECMA-262, section 19.2.5, "parseInt ( string, radix )"). The answer check
  calls `Number.parseInt(value)` with no radix. `parseInt` then:
  - skips leading white space (the StrWhiteSpaceChar code points);
  - reads an optional sign;
  - reads hexadecimal digits after a `0x` or `0X` prefix, and decimal digits
    otherwise;
  - returns the value of the longest run of digits, or NaN if there is none.

  The module also has a reference decimal notation (`IntToDecimal`) and
  proves that a decimal numeral reads back as its integer.
- `image_carousel.dfy`: module `ImageCarousel`, the index successor
  `(prevIndex + 1) % items.length`, and what it does over a run of timer
  ticks.
- `home_page.dfy`: module `Page`. Values are datatypes: `FormData`, `Captcha`,
  the handler argument `Edit`, and the alert `Notice`. The page is a class,
  `HomePage`. Its fields are `isFormOpen`, `formData`, `captcha` and
  `captchaValid`. It has one method per handler.

  Every handler preserves the invariant `HomePage.Valid()`:
  - `captchaValid` is exactly `parseInt(answer) == num1 + num2`;
  - the operands are either the reset pair (0, 0) or both drawn from [1, 10];
  - while the dialog is open, both operands are drawn.

  Two client methods walk through a session: `ChallengeScenario` and
  `SubmitScenario`.

Submitting checks only the challenge (app/page.tsx:171). The terms box is
enforced only by the disabled submit button (app/page.tsx:789).
`HomePage.HandleSubmit` follows the code, and `SubmitScenario` submits with
the box unticked.

## Model

| member | source | states |
|---|---|---|
| `JsParseInt.ParseIntOfDecimal` | app/page.tsx:160 | `parseInt` reads back any integer's decimal numeral, whatever white space precedes it and whatever follows it, unless the next character would continue the numeral (a digit, or `x`/`X` after the numeral `0`; so `"12x"` reads as 12) |
| `JsParseInt.ParseIntSkipsWhiteSpace` | app/page.tsx:160 | leading white space never changes the result of `parseInt` |
| `JsParseInt.ParseInt` | app/page.tsx:160 | `Number.parseInt(s)` with no radix: trim leading white space, take an optional sign, read hexadecimal after `0x`/`0X` and decimal otherwise, up to the first non-digit; a string with no decimal digit at all is NaN (`None`) |
| `JsParseInt.ParseIntNegative` | app/page.tsx:160 | a leading `-` negates the value, and NaN stays NaN |
| `JsParseInt.TrimStartIsSuffix` | app/page.tsx:160 | trimming keeps a suffix of the answer and drops only white space |
| `JsParseInt.DigitPrefix` | app/page.tsx:160 | the digits read are the longest prefix made only of digits: the next character, if any, is not a digit |
| `ImageCarousel.NextIndex` | app/page.tsx:43 | the next slide index is below the slide count; it is the old index plus one, or 0 after the last slide |
| `ImageCarousel.IndexAfter` | app/page.tsx:39-47 | the index shown after a number of 5-second ticks, starting from `useState(0)` and stepping with `NextIndex`; it always names an existing slide |
| `ImageCarousel.CarouselsReturnToFirstSlide` | app/page.tsx:88-138 | the industry carousel (5 slides) and the Canadian carousel (4 slides) are back at their first slide after one full round |
| `ImageCarousel.FirstRoundInOrder` | app/page.tsx:39-44 | starting from index 0, the first round of ticks shows slides 0, 1, …, n-1 in order |
| `ImageCarousel.SlidesRepeat` | app/page.tsx:39-44 | after a full round of ticks, the index is what it was: the slides repeat with period n |
| `Page.ApplyEdit` | app/page.tsx:163-165 | an edit changes only the key it names; every other text field and the terms flag keep their values |
| `Page.FormsEqualByFields` | app/page.tsx:68-81 | a form state is determined by its eleven text fields and its terms flag, so the field-wise statement of `ApplyEdit` determines the whole new state |
| `Page.Operand` | app/page.tsx:142-143 | `Math.floor(Math.random() * 10) + 1` lies in [1, 10] |
| `Page.EveryOperandDrawable` | app/page.tsx:142-143 | every value from 1 to 10 can be drawn |
| `Page.DecimalAnswerCorrect` | app/page.tsx:159-160 | a decimal answer passes the check exactly when it is the sum of the operands (both directions) |
| `Page.IsCorrect` | app/page.tsx:159-160 | the check `Number.parseInt(answer) === num1 + num2`; an answer that passes contains a decimal digit, so an empty or non-numeric answer (NaN) never passes |
| `Page.HexAnswerAccepted` | app/page.tsx:160 | `"0x7"` passes for 3 + 4, because `parseInt` without a radix reads hexadecimal. This is a property of `parseInt` itself: the answer box is a number input (app/page.tsx:749-750), whose browser-side value is "" for such text, so the page cannot deliver this answer |
| `Page.DecoratedAnswerAccepted` | app/page.tsx:160 | `" +7.9"` passes for 3 + 4: white space and `+` are skipped, and reading stops at the `.`. This is a property of `parseInt` itself: a number input reports "" for text with white space or a leading `+`, so the page cannot deliver this answer (it can deliver "7.9", which also passes) |
| `Page.ExponentAnswerRejected` | app/page.tsx:160 | `"1e1"` reads as 1, not 10, so it fails for 4 + 6 |
| `Page.HomePage.SubmitEnabled` | app/page.tsx:789 | the enabled rule `agreeToTerms && captchaValid`; on a page that keeps its invariant, the button is enabled exactly when the terms box is ticked and the answer reads as num1 + num2 |
| `Page.HomePage.Valid` | app/page.tsx:84-85 | the page invariant: `captchaValid` agrees with the answer check on the current challenge; the operands are (0, 0) or both in [1, 10], and both in [1, 10] while the dialog is open; so while open the expected sum lies in [2, 20], and a valid answer is never empty |
| `Page.HomePage.constructor` | app/page.tsx:67-85 | initial state: dialog closed, empty form, terms unticked, challenge (0, 0, ""), not valid; the invariant holds |
| `Page.HomePage.GenerateCaptcha` | app/page.tsx:141-146 | operands drawn from [1, 10], answer "", not valid; form and dialog unchanged; invariant re-established |
| `Page.HomePage.HandleFormOpen` | app/page.tsx:149-154 | opening sets the dialog open with a fresh challenge (empty answer, not valid); closing changes only the dialog flag; the form is never touched |
| `Page.HomePage.HandleCaptchaChange` | app/page.tsx:157-161 | the answer is stored verbatim with the operands unchanged; validity is `parseInt(value) == num1 + num2` on the current operands; form and dialog unchanged |
| `Page.HomePage.HandleInputChange` | app/page.tsx:163-165 | the form becomes `ApplyEdit(old form, edit)`; challenge, validity and dialog unchanged |
| `Page.HomePage.HandleSubmit` | app/page.tsx:167-197 | with an unsolved challenge: the "solve the problem" alert, and nothing changes. With a solved challenge, whether or not the terms box is ticked: the form snapshot is delivered, the thank-you alert is shown, the dialog closes, the form is emptied, and the challenge resets to (0, 0, "") and not valid |
| `Page.HomePage.Cancel` | app/page.tsx:793 | the dialog closes; the form, challenge and validity keep their values |

## Left out

- Markup, styling, navigation and the static page sections: presentational only.
- The UI components (`Dialog`, `Select`, `Checkbox`, `Input`, `Button`): not part of this model. They appear only as the sources of handler calls.
- `Math.random`: each draw is a parameter in [0, 1). `Page.Operand` uses exact reals, so the floating-point rounding of `random * 10` is not modelled. For any double below 1, the rounded product stays below 10, so the range [1, 10] is unaffected.
- `alert`: modelled as the returned `Notice`.
- `console.log` of the submitted form: modelled as the ghost log `submitted`.
- `e.preventDefault()`: has no effect on page state, so it is not modelled.
- JavaScript Numbers: `parseInt`'s Number result is modelled as an exact integer, and `-0` as 0. The answer is compared with num1 + num2, which is at most 20. Doubles represent every integer up to 2^53 exactly and round larger values to values of at least 2^53. So the comparison has the same outcome either way. ECMA-262 lets an implementation approximate digits after the 20th significant one; this does not change the outcome either, for the same reason.
- JavaScript strings are UTF-16 code units. The model uses Unicode scalar values, so a lone surrogate cannot be represented. Neither white space nor digits are affected.
- The browser's own `required`, `type="email"` and `type="number"` checks: they run before the submit handler and are not part of this code. Typed answers are arbitrary strings.
- The select fields: they hold arbitrary strings. The input handler does not restrict them to the offered option values.
- `Page.Edit`: covers only what the page's call sites pass, namely a text key with a string, or `agreeToTerms` with a boolean. `handleInputChange` also accepts unknown keys and mismatched values, and the checkbox's `"indeterminate"` state. These never arise from the page.
- React's batched, asynchronous state updates: each handler is one atomic update that reads the current state.
- `setInterval` and `clearInterval` in the carousel: the timer becomes a count of ticks.
- `ImageCarousel.NextIndex`: requires at least one slide. In JavaScript, zero items would give NaN. Both carousels on the page have fixed item lists, of 5 and 4 slides.
- app/layout.tsx: metadata and the root HTML wrapper only, with no logic.
