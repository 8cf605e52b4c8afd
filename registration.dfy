/**
 * What the two registration modals share: the licence-category checkboxes
 * and the application handed over on submit.
 */
module Registration {

  import opened Lists
  import opened FormValidation

  /** The categories offered as checkboxes, in display order. */
  const OfferedCategories: seq<string> := ["A", "B", "C", "D", "E", "F"]

  /** A submitted form: every field of the form plus the checked categories. */
  datatype Application = Application(fields: map<string, string>, cats: seq<string>)

  /** What a submit does: refuse with an alert, or hand over the application with an alert. */
  datatype Outcome = Rejected(alert: string) | Submitted(application: Application, alert: string)

  /** The text of the form's e-mail input; both forms start with the field present. */
  function EmailOf(formData: map<string, string>): string
  {
    if "email" in formData then formData["email"] else ""
  }

  /**
   * The e-mail input is `type="email"` but not `required`: the browser lets
   * the form submit when it is empty or holds a valid address.
   */
  predicate EmailAllowsSubmit(formData: map<string, string>)
  {
    EmailOf(formData) == "" || IsValidEmail(EmailOf(formData))
  }

  /** A filled-in e-mail without an `@` stops the submit; an empty one never does. */
  lemma EmailGate(formData: map<string, string>)
    ensures EmailOf(formData) == "" ==> EmailAllowsSubmit(formData)
    ensures var e := EmailOf(formData);
            e != "" && (forall i :: 0 <= i < |e| ==> e[i] != '@') ==> !EmailAllowsSubmit(formData)
  {
    if forall i :: 0 <= i < |EmailOf(formData)| ==> EmailOf(formData)[i] != '@' {
      NoAtSignInvalid(EmailOf(formData));
    }
  }

  /**
   * The value an input stores: the e-mail input's value is sanitised by the
   * browser before `handleChange` reads it, any other input keeps the raw text.
   */
  function InputValue(name: string, value: string): (r: string)
    ensures name == "email" ==> IsCleanEmailValue(r) && |r| <= |value|
    ensures name != "email" ==> r == value
  {
    if name == "email" then SanitizeEmail(value) else value
  }

  /** The categories other than `value`, in their order. */
  function Without(cats: seq<string>, value: string): seq<string>
  {
    Filter(cats, (c: string) => c != value)
  }

  /**
   * `handleCatChange`: checking a box appends its value at the end;
   * unchecking drops every occurrence of it and keeps the rest.
   */
  function Toggle(cats: seq<string>, value: string, checked: bool): (r: seq<string>)
    ensures checked ==> |r| == |cats| + 1 && r[..|cats|] == cats && r[|cats|] == value
    ensures !checked ==> forall i :: 0 <= i < |r| ==> r[i] != value && r[i] in cats
    ensures !checked ==> forall i :: 0 <= i < |cats| && cats[i] != value ==> cats[i] in r
  {
    if checked then cats + [value] else Without(cats, value)
  }

  /** Unchecking removes exactly the occurrences of the value: every other category keeps its count. */
  lemma {:induction false} UncheckCounts(cats: seq<string>, value: string)
    ensures multiset(Toggle(cats, value, false)) == multiset(cats)[value := 0]
  {
    if cats == [] {
    } else {
      UncheckCounts(cats[1..], value);
      assert cats == [cats[0]] + cats[1..];
      assert multiset(cats) == multiset{cats[0]} + multiset(cats[1..]);
    }
  }

  /** Unchecking keeps the order: it works piece by piece on any split of the list. */
  lemma UncheckKeepsOrder(front: seq<string>, back: seq<string>, value: string)
    ensures Toggle(front + back, value, false) == Toggle(front, value, false) + Toggle(back, value, false)
  {
    FilterConcat(front, back, (c: string) => c != value);
  }

  /** Unchecking a category that is not selected changes nothing. */
  lemma UncheckAbsent(cats: seq<string>, value: string)
    requires forall i :: 0 <= i < |cats| ==> cats[i] != value
    ensures Toggle(cats, value, false) == cats
  {
    FilterKeepsAll(cats, (c: string) => c != value);
  }

  /** Checking a new category and unchecking it again restores the selection. */
  lemma CheckThenUncheck(cats: seq<string>, value: string)
    requires forall i :: 0 <= i < |cats| ==> cats[i] != value
    ensures Toggle(Toggle(cats, value, true), value, false) == cats
  {
    UncheckKeepsOrder(cats, [value], value);
    UncheckAbsent(cats, value);
    assert Filter([value], (c: string) => c != value) == [];
  }

  /** A second uncheck of the same box changes nothing. */
  lemma UncheckTwice(cats: seq<string>, value: string)
    ensures Toggle(Toggle(cats, value, false), value, false) == Toggle(cats, value, false)
  {
    UncheckAbsent(Toggle(cats, value, false), value);
  }

  /**
   * The category list mirrors the ticked boxes: each ticked category appears
   * exactly once, and nothing else appears. Only offered categories can be
   * ticked.
   */
  ghost predicate Mirrors(cats: seq<string>, ticked: set<string>)
  {
    && (forall c :: c in ticked ==> c in OfferedCategories)
    && (forall c :: multiset(cats)[c] == if c in ticked then 1 else 0)
  }

  /**
   * The boxes are uncontrolled: a click on an offered box flips its own
   * ticked state and reports the new state as `checked`. Every click keeps
   * the list a mirror of the ticked boxes, so a category is never listed twice.
   */
  lemma ClickKeepsMirror(cats: seq<string>, ticked: set<string>, value: string)
    requires Mirrors(cats, ticked) && value in OfferedCategories
    ensures var checked := value !in ticked;
            Mirrors(Toggle(cats, value, checked), if checked then ticked + {value} else ticked - {value})
  {
    if value !in ticked {
      assert multiset(cats + [value]) == multiset(cats) + multiset{value};
    } else {
      UncheckCounts(cats, value);
    }
  }
}
