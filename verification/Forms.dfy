/** Published application forms and the validator of their answers. */
module Forms {
  import opened Domain
  import opened Text

  // ---- Forms ---------------------------------------------------------------------------

  datatype Condition = Condition(key: string, equals: bool)

  datatype Question = Question(
    key: string, caption: string, kind: string, required: bool, help: Option<string>, section: Option<string>,
    control: Option<string>, options: seq<string>, maxWords: Option<int>, showWhen: Option<Condition>)

  datatype Form = Form(resumeRequired: bool, resumeAfter: Option<string>, questions: seq<Question>)

  // The stored document: what JSON decoding yields when every field is optional.
  datatype ConditionDoc = ConditionDoc(key: Option<string>, equals: Option<bool>)
  datatype QuestionDoc = QuestionDoc(
    key: Option<string>, caption: Option<string>, kind: Option<string>, required: Option<bool>, help: Option<string>,
    section: Option<string>, control: Option<string>, options: seq<string>, maxWords: Option<int>,
        showWhen: Option<ConditionDoc>)
  datatype FormDoc = FormDoc(resumeRequired: bool, resumeAfter: Option<string>, questions: Option<seq<QuestionDoc>>)

  const KINDS := {"string", "number", "boolean"}
  const CONTROLS := {"text", "email", "textarea", "select"}

  predicate Unique(xs: seq<string>) {
    forall i, j :: 0 <= i < j < |xs| ==> xs[i] != xs[j]
  }

  predicate GoodCondition(d: ConditionDoc) {
    d.key.Some? && d.equals.Some? && !Blank(d.key.value)
  }

  predicate GoodOptions(d: QuestionDoc)
    requires d.kind.Some?
  {
    if d.options != [] then
      && d.kind.value == "string" && d.control == Some("select") && Unique(d.options)
      && forall i :: 0 <= i < |d.options| ==> !Blank(d.options[i]) && Trim(d.options[i]) == d.options[i]
    else d.control != Some("select")
  }

  /** A question document that stands on its own. */
  predicate GoodQuestion(d: QuestionDoc) {
    && d.key.Some? && d.caption.Some? && d.kind.Some? && d.required.Some?
    && d.key.value != "" && Trim(d.key.value) == d.key.value && !Blank(d.caption.value)
    && d.kind.value in KINDS
    && (d.section.Some? ==> !Blank(d.section.value))
    && (d.control.Some? ==> d.kind.value == "string" && d.control.value in CONTROLS)
    && GoodOptions(d)
    && (d.maxWords.Some? ==> d.kind.value == "string" && d.maxWords.value > 0)
    && (d.showWhen.Some? ==> GoodCondition(d.showWhen.value))
  }

  function Read(d: QuestionDoc): Question
    requires GoodQuestion(d)
  {
    Question(d.key.value, d.caption.value, d.kind.value, d.required.value, d.help, d.section, d.control, d.options,
             d.maxWords,
             if d.showWhen.Some? then Some(Condition(d.showWhen.value.key.value, d.showWhen.value.equals.value))
                 else None)
  }

  function ReadAll(ds: seq<QuestionDoc>): (qs: seq<Question>)
    requires forall i :: 0 <= i < |ds| ==> GoodQuestion(ds[i])
    ensures |qs| == |ds| && forall i :: 0 <= i < |ds| ==> qs[i] == Read(ds[i])
  {
    if ds == [] then [] else ReadAll(ds[..|ds| - 1]) + [Read(ds[|ds| - 1])]
  }

  predicate DistinctKeys(qs: seq<Question>) {
    forall i, j :: 0 <= i < j < |qs| ==> qs[i].key != qs[j].key
  }

  predicate HasQuestion(qs: seq<Question>, key: string) {
    exists i :: 0 <= i < |qs| && qs[i].key == key
  }

  /** A condition names another question, and that one is answered yes or no. */
  predicate GoodReference(qs: seq<Question>, q: Question) {
    q.showWhen.Some? ==>
      && q.showWhen.value.key != q.key && HasQuestion(qs, q.showWhen.value.key)
      && forall i :: 0 <= i < |qs| && qs[i].key == q.showWhen.value.key ==> qs[i].kind == "boolean"
  }

  predicate GoodForm(form: Form) {
    && form.questions != [] && DistinctKeys(form.questions)
    && (forall i :: 0 <= i < |form.questions| ==> GoodReference(form.questions, form.questions[i]))
    && (form.resumeAfter.Some? ==> HasQuestion(form.questions, form.resumeAfter.value))
  }

  /** The documents that are forms. */
  predicate Publishable(doc: FormDoc) {
    && doc.questions.Some?
    && (forall i :: 0 <= i < |doc.questions.value| ==> GoodQuestion(doc.questions.value[i]))
    && GoodForm(Form(doc.resumeRequired, doc.resumeAfter, ReadAll(doc.questions.value)))
  }

  method OptionsAreGood(options: seq<string>) returns (ok: bool)
    ensures ok <==> Unique(options) && forall i :: 0 <= i < |options| ==>
            !Blank(options[i]) && Trim(options[i]) == options[i]
  {
    var seen: set<string> := {};
    for i := 0 to |options|
      invariant forall x :: x in seen <==> exists j :: 0 <= j < i && options[j] == x
      invariant Unique(options[..i]) && forall j :: 0 <= j < i ==> !Blank(options[j]) && Trim(options[j]) == options[j]
    {
      if Blank(options[i]) || Trim(options[i]) != options[i] { return false; }
      if options[i] in seen {
        var j :| 0 <= j < i && options[j] == options[i];
        assert !Unique(options);
        return false;
      }
      seen := seen + {options[i]};
      assert options[..i + 1] == options[..i] + [options[i]];
    }
    assert options[..|options|] == options;
    return true;
  }

  /** Checks one question document on its own. */
  method QuestionIsGood(d: QuestionDoc) returns (ok: bool)
    ensures ok <==> GoodQuestion(d)
  {
    if d.key.None? || d.caption.None? || d.kind.None? || d.required.None?
       || d.key.value == "" || Trim(d.key.value) != d.key.value || Blank(d.caption.value) {
      return false;
    }
    if d.kind.value != "string" && d.kind.value != "number" && d.kind.value != "boolean" { return false; }
    if d.section.Some? && Blank(d.section.value) { return false; }
    if d.control.Some? {
      if d.kind.value != "string" || (d.control.value != "text" && d.control.value != "email"
                                      && d.control.value != "textarea" && d.control.value != "select") {
        return false;
      }
    }
    if |d.options| > 0 {
      if d.kind.value != "string" || d.control.None? || d.control.value != "select" { return false; }
      var good := OptionsAreGood(d.options);
      if !good { return false; }
    } else if d.control == Some("select") {
      return false;
    }
    if d.maxWords.Some? && (d.kind.value != "string" || d.maxWords.value <= 0) { return false; }
    return d.showWhen.None?
        || (d.showWhen.value.key.Some? && d.showWhen.value.equals.Some? && !Blank(d.showWhen.value.key.value));
  }

  /** Checks that every condition names another question answered yes or no. */
  method ReferencesAreGood(qs: seq<Question>, keys: set<string>) returns (ok: bool)
    requires forall k :: k in keys <==> HasQuestion(qs, k)
    ensures ok <==> forall i :: 0 <= i < |qs| ==> GoodReference(qs, qs[i])
  {
    for i := 0 to |qs|
      invariant forall j :: 0 <= j < i ==> GoodReference(qs, qs[j])
    {
      if qs[i].showWhen.Some? {
        var c := qs[i].showWhen.value;
        if c.key !in keys || c.key == qs[i].key {
          assert !GoodReference(qs, qs[i]);
          return false;
        }
        for k := 0 to |qs|
          invariant forall j :: 0 <= j < k && qs[j].key == c.key ==> qs[j].kind == "boolean"
        {
          if qs[k].key == c.key && qs[k].kind != "boolean" {
            assert !GoodReference(qs, qs[i]);
            return false;
          }
        }
      }
    }
    return true;
  }

  lemma RepeatedKey(ds: seq<QuestionDoc>, j: nat, i: nat)
    requires j < i < |ds| && (forall k :: 0 <= k < |ds| ==> GoodQuestion(ds[k])) && Read(ds[j]).key == Read(ds[i]).key
    ensures !DistinctKeys(ReadAll(ds))
  {
    var qs := ReadAll(ds);
    assert qs[j].key == qs[i].key;
  }

  /** Reads the questions in order, as long as each stands on its own and has a key of its own. */
  method ReadQuestions(ds: seq<QuestionDoc>) returns (ok: bool, questions: seq<Question>, keys: set<string>)
    ensures ok <==> (forall i :: 0 <= i < |ds| ==> GoodQuestion(ds[i])) && DistinctKeys(ReadAll(ds))
    ensures ok ==> questions == ReadAll(ds) && forall k :: k in keys <==> HasQuestion(questions, k)
  {
    questions, keys := [], {};
    for i := 0 to |ds|
      invariant forall j :: 0 <= j < i ==> GoodQuestion(ds[j])
      invariant |questions| == i && (forall j :: 0 <= j < i ==> questions[j] == Read(ds[j])) && DistinctKeys(questions)
      invariant forall k :: k in keys <==> HasQuestion(questions, k)
    {
      var good := QuestionIsGood(ds[i]);
      if !good { return false, questions, keys; }
      if ds[i].key.value in keys {
        var j :| 0 <= j < |questions| && questions[j].key == ds[i].key.value;
        if forall k :: 0 <= k < |ds| ==> GoodQuestion(ds[k]) { RepeatedKey(ds, j, i); }
        return false, questions, keys;
      }
      keys := keys + {ds[i].key.value};
      AddedKey(questions, Read(ds[i]));
      questions := questions + [Read(ds[i])];
    }
    assert questions == ReadAll(ds);
    return true, questions, keys;
  }

  /** Parses a stored document, None standing for text that is not one JSON document of the known fields. It yields a
      form exactly for publishable documents, with the questions in order. */
  method ParsePublishedForm(raw: Option<FormDoc>) returns (form: Option<Form>)
    ensures form.Some? <==> raw.Some? && Publishable(raw.value)
    ensures form.Some? ==>
      form.value == Form(raw.value.resumeRequired, raw.value.resumeAfter, ReadAll(raw.value.questions.value))
          && GoodForm(form.value)
  {
    if raw.None? || raw.value.questions.None? || |raw.value.questions.value| == 0 { return None; }
    var ok, questions, keys := ReadQuestions(raw.value.questions.value);
    if !ok { return None; }
    var good := ReferencesAreGood(questions, keys);
    if !good { return None; }
    if raw.value.resumeAfter.Some? && raw.value.resumeAfter.value !in keys { return None; }
    return Some(Form(raw.value.resumeRequired, raw.value.resumeAfter, questions));
  }

  lemma AddedKey(qs: seq<Question>, q: Question)
    ensures forall k :: HasQuestion(qs + [q], k) <==> HasQuestion(qs, k) || k == q.key
  {
    var all := qs + [q];
    forall k ensures HasQuestion(all, k) <==> HasQuestion(qs, k) || k == q.key {
      assert all[|qs|] == q;
      if HasQuestion(qs, k) {
        var i :| 0 <= i < |qs| && qs[i].key == k;
        assert all[i].key == k;
      }
    }
  }

  // ---- Answers ---------------------------------------------------------------------------

  // A raw answer, as decoding it yields.
  datatype Raw = Text(text: string) | Number | Flag(value: bool) | Other | Malformed

  datatype Verdict = Fine | Invalid | Incomplete

  /** The question an answer is checked against: the last one with its key. */
  function Asked(qs: seq<Question>, key: string): (q: Option<Question>)
    ensures q.Some? <==> HasQuestion(qs, key)
    ensures q.Some? ==> q.value in qs && q.value.key == key
  {
    if qs == [] then None
    else if qs[|qs| - 1].key == key then Some(qs[|qs| - 1])
    else
      var rest := Asked(qs[..|qs| - 1], key);
      assert HasQuestion(qs, key) ==> HasQuestion(qs[..|qs| - 1], key) by {
        if i :| 0 <= i < |qs| && qs[i].key == key { assert qs[..|qs| - 1][i].key == key; }
      }
      rest
  }

  /** An answer of the question's type, among its options and within its length. isAddress says whether a trimmed text
      parses as an email address and is that address. */
  predicate Conforms(q: Question, v: Raw, isAddress: string -> bool) {
    match q.kind
    case "string" =>
      && v.Text? && (q.maxWords.Some? ==> Words(v.text) <= q.maxWords.value)
      && (q.options != [] ==> v.text in q.options)
      && (q.control == Some("email") && !Blank(v.text) ==> isAddress(Trim(v.text)))
    case "number" => v.Number?
    case "boolean" => v.Flag?
    case _ => !v.Malformed?
  }

  predicate Admissible(qs: seq<Question>, answers: map<string, Raw>, key: string, isAddress: string -> bool)
    requires key in answers
  {
    Asked(qs, key).Some? && Conforms(Asked(qs, key).value, answers[key], isAddress)
  }

  predicate Shown(q: Question, answers: map<string, Raw>) {
    q.showWhen.Some? ==> Get(answers, q.showWhen.value.key) == Some(Flag(q.showWhen.value.equals))
  }

  /** A text with at least one word, where a text is asked for. */
  predicate Worded(qs: seq<Question>, answers: map<string, Raw>, key: string)
    requires key in answers
  {
    && Asked(qs, key).Some? && Asked(qs, key).value.kind == "string"
    && answers[key].Text? && !Blank(answers[key].text)
  }

  /** A visible required question without a proper answer. */
  predicate Lacking(qs: seq<Question>, q: Question, answers: map<string, Raw>) {
    && q.required && Shown(q, answers)
    && (q.key !in answers ||
        (q.kind == "string" && !Worded(qs, answers, q.key)))
  }

  ghost predicate Accepts(qs: seq<Question>, answers: map<string, Raw>, isAddress: string -> bool) {
    && (forall key :: key in answers ==> Admissible(qs, answers, key, isAddress))
    && (forall i :: 0 <= i < |qs| && !Shown(qs[i], answers) ==> qs[i].key !in answers)
  }

  ghost predicate Complete(qs: seq<Question>, answers: map<string, Raw>) {
    forall i :: 0 <= i < |qs| ==> !Lacking(qs, qs[i], answers)
  }

  /** The verdict on a set of answers, independent of any order of visiting them. */
  ghost function Judged(form: Form, answers: Option<map<string, Raw>>, requireRequired: bool,
                        isAddress: string -> bool): Verdict {
    if answers.None? || !Accepts(form.questions, answers.value, isAddress) then Invalid
    else if requireRequired && !Complete(form.questions, answers.value) then Incomplete
    else Fine
  }

  predicate ConditionMatches(c: Condition, answers: map<string, Raw>) {
    c.key in answers && answers[c.key].Flag? && answers[c.key].value == c.equals
  }

  method IndexQuestions(qs: seq<Question>) returns (byKey: map<string, Question>)
    ensures forall k :: k in byKey <==> HasQuestion(qs, k)
    ensures forall k :: k in byKey ==> Asked(qs, k) == Some(byKey[k])
  {
    byKey := map[];
    for i := 0 to |qs|
      invariant forall k :: k in byKey <==> HasQuestion(qs[..i], k)
      invariant forall k :: k in byKey ==> Asked(qs[..i], k) == Some(byKey[k])
    {
      byKey := byKey[qs[i].key := qs[i]];
      AddedKey(qs[..i], qs[i]);
      assert qs[..i + 1] == qs[..i] + [qs[i]];
    }
    assert qs[..|qs|] == qs;
  }

  /** Checks one decoded answer against its question, and reports whether it is a text with words. */
  method CheckAnswer(q: Question, v: Raw, isAddress: string -> bool) returns (ok: bool, nonempty: bool)
    ensures ok <==> Conforms(q, v, isAddress)
    ensures ok ==> (nonempty <==> q.kind == "string" && v.Text? && !Blank(v.text))
  {
    nonempty := false;
    if v.Malformed? { return false, false; }
    if q.kind == "string" {
      if !v.Text? { return false, false; }
      nonempty := Trim(v.text) != "";
      if q.maxWords.Some? && Words(v.text) > q.maxWords.value { return false, nonempty; }
      if |q.options| > 0 && v.text !in q.options { return false, nonempty; }
      if q.control == Some("email") && Trim(v.text) != "" && !isAddress(Trim(v.text)) { return false, nonempty; }
      return true, nonempty;
    }
    if q.kind == "number" { return v.Number?, false; }
    if q.kind == "boolean" { return v.Flag?, false; }
    return true, false;
  }

  /** Checks the answers one by one, in any order, and remembers which are texts with words. */
  method CheckAnswers(qs: seq<Question>, answers: map<string, Raw>, isAddress: string -> bool)
    returns (ok: bool, nonempty: map<string, bool>)
    ensures ok <==> forall key :: key in answers ==> Admissible(qs, answers, key, isAddress)
    ensures ok ==> answers.Keys <= nonempty.Keys
    ensures ok ==> forall key :: key in answers ==> (nonempty[key] <==> Worded(qs, answers, key))
  {
    var byKey := IndexQuestions(qs);
    nonempty := map[];
    var pending := answers.Keys;
    while pending != {}
      invariant pending <= answers.Keys
      invariant forall key :: key in answers && key !in pending ==>
        Admissible(qs, answers, key, isAddress) && key in nonempty && (nonempty[key] <==> Worded(qs, answers, key))
      decreases |pending|
    {
      var key :| key in pending;
      pending := pending - {key};
      if key !in byKey {
        assert !Admissible(qs, answers, key, isAddress);
        return false, nonempty;
      }
      var good, words := CheckAnswer(byKey[key], answers[key], isAddress);
      if !good {
        assert !Admissible(qs, answers, key, isAddress);
        return false, nonempty;
      }
      nonempty := nonempty[key := words];
    }
    return true, nonempty;
  }

  /** Questions that are not shown must not be answered. */
  method CheckHidden(qs: seq<Question>, answers: map<string, Raw>) returns (ok: bool)
    ensures ok <==> forall i :: 0 <= i < |qs| && !Shown(qs[i], answers) ==> qs[i].key !in answers
  {
    for i := 0 to |qs|
      invariant forall j :: 0 <= j < i && !Shown(qs[j], answers) ==> qs[j].key !in answers
    {
      if qs[i].showWhen.Some? && !ConditionMatches(qs[i].showWhen.value, answers) {
        if qs[i].key in answers { return false; }
      }
    }
    return true;
  }

  /** Required questions that are shown must be answered, a text with more than white space. */
  method CheckRequired(qs: seq<Question>, answers: map<string, Raw>, nonempty: map<string, bool>) returns (ok: bool)
    requires answers.Keys <= nonempty.Keys
    requires forall key :: key in answers ==> (nonempty[key] <==> Worded(qs, answers, key))
    ensures ok <==> Complete(qs, answers)
  {
    for i := 0 to |qs|
      invariant forall j :: 0 <= j < i ==> !Lacking(qs, qs[j], answers)
    {
      if qs[i].required && (qs[i].showWhen.None? || ConditionMatches(qs[i].showWhen.value, answers)) {
        if qs[i].key !in answers || (qs[i].kind == "string" && !nonempty[qs[i].key]) {
          assert Lacking(qs, qs[i], answers);
          return false;
        }
      }
    }
    return true;
  }

  /** Validates a set of answers, None standing for a missing one. */
  method ValidateAnswers(form: Form, answers: Option<map<string, Raw>>, requireRequired: bool,
                         isAddress: string -> bool)
    returns (verdict: Verdict)
    ensures verdict == Judged(form, answers, requireRequired, isAddress)
  {
    if answers.None? { return Invalid; }
    var qs, given := form.questions, answers.value;
    var ok, nonempty := CheckAnswers(qs, given, isAddress);
    if !ok { return Invalid; }
    ok := CheckHidden(qs, given);
    if !ok { return Invalid; }
    if requireRequired {
      ok := CheckRequired(qs, given, nonempty);
      if !ok { return Incomplete; }
    }
    return Fine;
  }

  // ---- What acceptance means ----------------------------------------------------------------

  lemma AskedInForm(qs: seq<Question>, i: nat)
    requires DistinctKeys(qs) && i < |qs|
    ensures Asked(qs, qs[i].key) == Some(qs[i])
  {
    var q := Asked(qs, qs[i].key);
    assert HasQuestion(qs, qs[i].key);
    var j :| 0 <= j < |qs| && qs[j] == q.value;
  }

  /** Complete answers are acceptable drafts; whatever an incomplete draft lacks, nothing in it has to be taken back. */
  lemma CompleteIsDraft(form: Form, answers: Option<map<string, Raw>>, isAddress: string -> bool)
    ensures Judged(form, answers, true, isAddress).Fine? ==> Judged(form, answers, false, isAddress).Fine?
    ensures Judged(form, answers, true, isAddress).Invalid? <==> Judged(form, answers, false, isAddress).Invalid?
  {
  }

  /** In accepted answers to a parsed form a condition never meets anything but yes or no. */
  lemma ConditionsMeetBooleans(form: Form, answers: map<string, Raw>, isAddress: string -> bool, i: nat)
    requires GoodForm(form) && Judged(form, Some(answers), false, isAddress).Fine? && i < |form.questions|
    requires form.questions[i].showWhen.Some? && form.questions[i].showWhen.value.key in answers
    ensures answers[form.questions[i].showWhen.value.key].Flag?
  {
    var key := form.questions[i].showWhen.value.key;
    assert GoodReference(form.questions, form.questions[i]);
    assert Admissible(form.questions, answers, key, isAddress);
    var j :| 0 <= j < |form.questions| && form.questions[j].key == key;
    AskedInForm(form.questions, j);
  }

  predicate Under(q: Question, parent: Question) {
    q.showWhen.Some? && q.showWhen.value.key == parent.key
  }

  /** A chain of questions, each shown only under a condition on the next. */
  predicate Nested(qs: seq<Question>, chain: seq<Question>) {
    && (forall k :: 0 <= k < |chain| ==> chain[k] in qs)
    && (forall k :: 0 < k < |chain| ==> Under(chain[k - 1], chain[k]))
  }

  /** Where a question is answered, every question it is nested under is answered too, the way the nesting demands. */
  lemma {:induction false} AncestorsAreAnswered(form: Form, answers: map<string, Raw>, isAddress: string -> bool,
                                                chain: seq<Question>, k: nat)
    requires GoodForm(form) && Judged(form, Some(answers), false, isAddress).Fine?
    requires Nested(form.questions, chain) && 0 < k < |chain| && chain[0].key in answers
    ensures Get(answers, chain[k].key) == Some(Flag(chain[k - 1].showWhen.value.equals))
  {
    assert Under(chain[k - 1], chain[k]);
    if k > 1 { AncestorsAreAnswered(form, answers, isAddress, chain, k - 1); }
    var q := chain[k - 1];
    var i :| 0 <= i < |form.questions| && form.questions[i] == q;
    assert Shown(form.questions[i], answers);
  }
}
