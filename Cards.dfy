/** The value cards of the inspector page: what `App.setText` writes into a card
    (its text and class list), the wording `App.checkAPISupport` chooses, and the
    priority cascade of `checkMediaQuery` for HDR and colour-gamut media queries. */
module Cards {
  import opened JsText

  /** A value handed to `setText`: `undefined`/`null`, or the text `String(value)`
      gives for anything else. */
  datatype Value = Missing | Given(text: string)

  /** What a card ends up showing: its text and its class list, in order. */
  datatype Card = Card(text: string, classes: seq<string>)

  /** The card text: "N/A" for a missing value or one that trims to nothing,
      otherwise the value's own text. */
  function DisplayText(value: Value): string
  {
    if value.Missing? || Trim(value.text) == "" then "N/A" else value.text
  }

  /** A value is shown as itself unless it is missing or all whitespace, in which
      case the card reads "N/A". */
  lemma DisplayTextShows(value: Value)
    ensures value.Missing? ==> DisplayText(value) == "N/A"
    ensures value.Given? && AllSpace(value.text) ==> DisplayText(value) == "N/A"
    ensures value.Given? && !AllSpace(value.text) ==> DisplayText(value) == value.text
  {
    if value.Given? {
      TrimEmptyIffAllSpace(value.text);
    }
  }

  predicate NoDuplicates(s: seq<string>)
  {
    forall i, j :: 0 <= i < j < |s| ==> s[i] != s[j]
  }

  /** `classList.add(c)`: appends `c` unless it is already there. */
  function AddClass(classes: seq<string>, c: string): (r: seq<string>)
    requires NoDuplicates(classes)
    ensures NoDuplicates(r) && |classes| <= |r| && r[..|classes|] == classes
    ensures forall x :: x in r <==> x in classes || x == c
  {
    if c in classes then classes else classes + [c]
  }

  /** The class list `setText` leaves: the base class name, then "code-text" for
      code values, then `value-<status>` when a status is given. */
  function ClassList(className: string, status: string, isCode: bool): (r: seq<string>)
    ensures NoDuplicates(r)
    ensures className != "" ==> |r| > 0 && r[0] == className
  {
    var base := if className == "" then [] else [className];
    var withCode := if isCode then AddClass(base, "code-text") else base;
    if status != "" then AddClass(withCode, "value-" + status) else withCode
  }

  /** Exactly the base class, "code-text" when asked for, and the status class
      when a status is given end up in the list. */
  lemma ClassListMembers(className: string, status: string, isCode: bool, x: string)
    ensures x in ClassList(className, status, isCode) <==>
      (x == className && className != "") || (isCode && x == "code-text") ||
      (status != "" && x == "value-" + status)
  {
  }

  /** `App.setText(id, value, {className, status, isCode})` on a card that exists. */
  function SetText(value: Value, className: string, status: string, isCode: bool): Card
  {
    Card(DisplayText(value), ClassList(className, status, isCode))
  }

  /** The message `handleErrorText` shows when it is given none. */
  const DefaultErrorMessage: string := "Error or N/A"

  /** `App.handleErrorText(id, message)`: the message, as `setText` shows it,
      under exactly the base class and the error status. */
  function HandleErrorText(message: string): (c: Card)
    ensures c.text == DisplayText(Given(message))
    ensures c.classes == ["card-value", "value-error"]
  {
    StatusClasses("error");
    assert "value-" + "error" == "value-error";
    SetText(Given(message), "card-value", "error", false)
  }

  /** With no message the error card reads "Error or N/A". */
  lemma DefaultErrorCard()
    ensures HandleErrorText(DefaultErrorMessage) == Card("Error or N/A", ["card-value", "value-error"])
  {
    assert !IsJsSpace(DefaultErrorMessage[0]);
    StatusCard(DefaultErrorMessage, "error");
  }

  /** A card with non-blank text and a status shows that text under the base
      class and the status class. */
  lemma StatusCard(text: string, status: string)
    requires !AllSpace(text) && status != ""
    ensures SetText(Given(text), "card-value", status, false) == Card(text, ["card-value", "value-" + status])
  {
    StatusClasses(status);
    DisplayTextShows(Given(text));
  }

  /** The class list of a plain card with a status. */
  lemma StatusClasses(status: string)
    requires status != ""
    ensures ClassList("card-value", status, false) == ["card-value", "value-" + status]
  {
    assert ("value-" + status)[0] != "card-value"[0];
  }

  lemma SupportWordsDistinct()
    ensures "value-" + "success" == "value-success" && "value-" + "warning" == "value-warning"
    ensures "value-success" != "value-warning" && "value-success" != "card-value" && "value-warning" != "card-value"
    ensures "Supported" != "Available" && "Supported" != "Not Supported" && "Supported" != "Not Available"
    ensures "Available" != "Not Supported" && "Available" != "Not Available" && "Not Supported" != "Not Available"
  {
    assert "value-success"[6] != "value-warning"[6] && "value-success"[0] != "card-value"[0];
    assert "Supported"[0] != "Available"[0] && "Not Supported"[4] != "Not Available"[4];
  }

  /** A JavaScript value as far as truthiness goes. */
  datatype JsValue = Undefined | Null | Bool(b: bool) | Number(x: real) | NotANumber | Str(s: string) | Object

  /** `!!v`. */
  predicate Truthy(v: JsValue)
  {
    match v
    case Undefined => false
    case Null => false
    case Bool(b) => b
    case Number(x) => x != 0.0
    case NotANumber => false
    case Str(s) => s != ""
    case Object => true
  }

  /** What `checkAPISupport` leaves on its card and returns. */
  datatype Support = Support(card: Card, supported: bool)

  /** `App.checkAPISupport(condition, id, featureName, availability)`: the card
      reads "Supported"/"Not Supported" (or "Available"/"Not Available" when
      `availability` is false) with a success or warning status, and the
      condition's truthiness is returned. */
  function CheckApiSupport(condition: JsValue, availability: bool): (r: Support)
    ensures r.supported == Truthy(condition)
    ensures r.card.text in {"Supported", "Not Supported"} <==> availability
    ensures r.card.text in {"Supported", "Available"} <==> r.supported
    ensures r.card.text in {"Supported", "Not Supported", "Available", "Not Available"}
    ensures "value-success" in r.card.classes <==> r.supported
    ensures "value-warning" in r.card.classes <==> !r.supported
    ensures "card-value" in r.card.classes
    ensures r.card.classes == ["card-value", if r.supported then "value-success" else "value-warning"]
  {
    var ok := Truthy(condition);
    var baseText :=
      if availability then (if ok then "Supported" else "Not Supported")
      else (if ok then "Available" else "Not Available");
    var status := if ok then "success" else "warning";
    assert !IsJsSpace(baseText[0]);
    StatusCard(baseText, status);
    SupportWordsDistinct();
    Support(SetText(Given(baseText), "card-value", status, false), ok)
  }

  /** Whether `window.matchMedia` exists, and if so which query texts match. */
  datatype MediaApi = NoMatchMedia | MatchMedia(matching: set<string>)

  /** The media query text `(<feature>: <value>)`. */
  function Query(feature: string, value: string): string
  {
    "(" + feature + ": " + value + ")"
  }

  /** `checkMediaQuery(mq, id, successMsg, failMsg, standardMsg)`: the first of
      high, p3, rec2020 that matches gives the success message with its
      qualifier and a success status; else standard or srgb gives the standard
      message; else the fail message, both neutral. Without `matchMedia` the
      card shows an error. */
  function CheckMediaQuery(api: MediaApi, mq: string, successMsg: string, failMsg: string, standardMsg: string): (r: Card)
    ensures api.NoMatchMedia? ==> r.text == "Media Query API N/A" && "value-error" in r.classes
    ensures api.NoMatchMedia? ==> r.classes == ["card-value", "value-error"]
    ensures api.MatchMedia? ==>
      r.classes == ["card-value", "value-success"] || r.classes == ["card-value", "value-neutral"]
    ensures api.MatchMedia? ==>
      ("value-success" in r.classes <==>
         Query(mq, "high") in api.matching || Query(mq, "p3") in api.matching ||
         Query(mq, "rec2020") in api.matching)
    ensures api.MatchMedia? ==> ("value-success" in r.classes <==> !("value-neutral" in r.classes))
  {
    match api
    case NoMatchMedia =>
      assert !IsJsSpace("Media Query API N/A"[0]);
      StatusCard("Media Query API N/A", "error");
      HandleErrorText("Media Query API N/A")
    case MatchMedia(m) =>
      var outcome :=
        if Query(mq, "high") in m then (successMsg + " (High)", "success")
        else if Query(mq, "p3") in m then (successMsg + " (Display P3)", "success")
        else if Query(mq, "rec2020") in m then (successMsg + " (Rec.2020)", "success")
        else if Query(mq, "standard") in m || Query(mq, "srgb") in m then (standardMsg, "neutral")
        else (failMsg, "neutral");
      StatusClasses(outcome.1);
      assert "value-" + "success" == "value-success" && "value-" + "neutral" == "value-neutral";
      assert "value-success"[6] != "value-neutral"[6];
      SetText(Given(outcome.0), "card-value", outcome.1, false)
  }

  /** The media feature values in the order the cascade tries them. */
  const Levels: seq<string> := ["high", "p3", "rec2020", "standard", "srgb"]

  /** The first level at or after `i` whose query matches, or `|Levels|` if none. */
  function FirstMatch(m: set<string>, mq: string, i: nat): (k: nat)
    requires i <= |Levels|
    ensures i <= k <= |Levels|
    ensures k < |Levels| ==> Query(mq, Levels[k]) in m
    ensures forall j :: i <= j < k ==> Query(mq, Levels[j]) !in m
    decreases |Levels| - i
  {
    if i == |Levels| then i
    else if Query(mq, Levels[i]) in m then i
    else FirstMatch(m, mq, i + 1)
  }

  /** The message and status each outcome of the cascade is shown with. */
  function LevelOutcome(k: nat, successMsg: string, failMsg: string, standardMsg: string): (string, string)
  {
    if k == 0 then (successMsg + " (High)", "success")
    else if k == 1 then (successMsg + " (Display P3)", "success")
    else if k == 2 then (successMsg + " (Rec.2020)", "success")
    else if k < |Levels| then (standardMsg, "neutral")
    else (failMsg, "neutral")
  }

  /** The cascade picks the outcome of the first matching level: a higher level
      wins whatever lower levels also match. */
  lemma CascadeIsFirstMatch(m: set<string>, mq: string, successMsg: string, failMsg: string, standardMsg: string)
    ensures var o := LevelOutcome(FirstMatch(m, mq, 0), successMsg, failMsg, standardMsg);
      CheckMediaQuery(MatchMedia(m), mq, successMsg, failMsg, standardMsg) ==
      SetText(Given(o.0), "card-value", o.1, false)
  {
    var k := FirstMatch(m, mq, 0);
    assert Levels[0] == "high" && Levels[1] == "p3" && Levels[2] == "rec2020";
    assert Levels[3] == "standard" && Levels[4] == "srgb";
    if k == |Levels| {
      assert Query(mq, Levels[3]) !in m && Query(mq, Levels[4]) !in m;
    }
  }
}
