/** What published forms and accepted answers are, stated on the fields alone. */
module FormContracts {
  import opened Domain
  import opened Text
  import opened Forms

  // ---- Text -----------------------------------------------------------------------------

  /** Has a word and no white space at either end. */
  predicate Neat(s: string) {
    s != "" && !Space(s[0]) && !Space(s[|s| - 1])
  }

  lemma {:induction false} TrimShrinks(s: string)
    ensures |Trim(s)| <= |s|
  {
    if s != "" {
      TrimShrinks(s[1..]);
      TrimShrinks(s[..|s| - 1]);
    }
  }

  lemma NeatMeans(s: string)
    ensures s != "" && Trim(s) == s <==> Neat(s)
    ensures !Blank(s) && Trim(s) == s <==> Neat(s)
  {
    if s != "" {
      TrimShrinks(s[1..]);
      TrimShrinks(s[..|s| - 1]);
    }
  }

  // ---- Forms ----------------------------------------------------------------------------

  /** A question as it may be published: named, captioned, of a known kind; only texts have controls, options and
      lengths; options belong to a selection, which has some, each neat and no two the same. */
  predicate Askable(d: QuestionDoc) {
    && d.key != None && Neat(d.key.value)
    && d.caption != None && Words(d.caption.value) > 0
    && d.required != None
    && (d.kind == Some("string") || d.kind == Some("number") || d.kind == Some("boolean"))
    && (d.section != None ==> Words(d.section.value) > 0)
    && (d.control != None ==> d.kind == Some("string"))
    && (d.control == None || d.control == Some("text") || d.control == Some("email") || d.control == Some("textarea")
        || d.control == Some("select"))
    && (d.control == Some("select") <==> d.options != [])
    && (forall i :: 0 <= i < |d.options| ==> Neat(d.options[i]))
    && (forall i, j :: 0 <= i < j < |d.options| ==> d.options[i] != d.options[j])
    && (d.maxWords != None ==> d.kind == Some("string") && d.maxWords.value >= 1)
    && (d.showWhen != None ==>
          d.showWhen.value.equals != None && d.showWhen.value.key != None && Words(d.showWhen.value.key.value) > 0)
  }

  lemma QuestionMeans(d: QuestionDoc)
    ensures GoodQuestion(d) <==> Askable(d)
  {
    if d.key.Some? { NeatMeans(d.key.value); }
    if d.caption.Some? { BlankHasNoWords(d.caption.value); }
    if d.section.Some? { BlankHasNoWords(d.section.value); }
    if d.showWhen.Some? && d.showWhen.value.key.Some? { BlankHasNoWords(d.showWhen.value.key.value); }
    forall i | 0 <= i < |d.options|
      ensures !Blank(d.options[i]) && Trim(d.options[i]) == d.options[i] <==> Neat(d.options[i])
    {
      NeatMeans(d.options[i]);
    }
  }

  predicate Asks(ds: seq<QuestionDoc>, key: string) {
    exists i :: 0 <= i < |ds| && ds[i].key == Some(key)
  }

  /** The question's condition, if it has one, is on another question, which is answered yes or no. */
  predicate RefersWell(ds: seq<QuestionDoc>, d: QuestionDoc) {
    d.showWhen != None ==>
      && d.showWhen.value.key != d.key
      && exists i :: 0 <= i < |ds| && ds[i].key == d.showWhen.value.key && ds[i].kind == Some("boolean")
  }

  /** A document that may be published. */
  predicate Wellformed(doc: FormDoc) {
    && doc.questions != None && doc.questions.value != []
    && var ds := doc.questions.value;
    && (forall i :: 0 <= i < |ds| ==> Askable(ds[i]))
    && (forall i, j :: 0 <= i < j < |ds| ==> ds[i].key != ds[j].key)
    && (forall i :: 0 <= i < |ds| ==> RefersWell(ds, ds[i]))
    && (doc.resumeAfter != None ==> Asks(ds, doc.resumeAfter.value))
  }

  /** The question has the document's fields. */
  predicate Mirrors(d: QuestionDoc, q: Question) {
    && d.key == Some(q.key) && d.caption == Some(q.caption) && d.kind == Some(q.kind)
    && d.required == Some(q.required) && q.help == d.help && q.section == d.section && q.control == d.control
    && q.options == d.options && q.maxWords == d.maxWords
    && match d.showWhen
       case None => q.showWhen == None
       case Some(c) =>
         q.showWhen.Some? && c.key == Some(q.showWhen.value.key) && c.equals == Some(q.showWhen.value.equals)
  }

  predicate AllMirror(ds: seq<QuestionDoc>, qs: seq<Question>) {
    |qs| == |ds| && forall i :: 0 <= i < |ds| ==> Mirrors(ds[i], qs[i])
  }

  lemma {:induction false} ReadMirrors(ds: seq<QuestionDoc>)
    requires forall i :: 0 <= i < |ds| ==> GoodQuestion(ds[i])
    ensures AllMirror(ds, ReadAll(ds))
  {
    forall i | 0 <= i < |ds| ensures Mirrors(ds[i], Read(ds[i])) {
    }
  }

  lemma AsksMeans(ds: seq<QuestionDoc>, qs: seq<Question>, key: string)
    requires AllMirror(ds, qs)
    ensures HasQuestion(qs, key) <==> Asks(ds, key)
  {
    if i :| 0 <= i < |ds| && ds[i].key == Some(key) { assert Mirrors(ds[i], qs[i]); }
    if i :| 0 <= i < |qs| && qs[i].key == key { assert Mirrors(ds[i], qs[i]); }
  }

  lemma DistinctMeans(ds: seq<QuestionDoc>, qs: seq<Question>)
    requires AllMirror(ds, qs)
    ensures DistinctKeys(qs) <==> forall i, j :: 0 <= i < j < |ds| ==> ds[i].key != ds[j].key
  {
    assert forall i :: 0 <= i < |ds| ==> Mirrors(ds[i], qs[i]);
  }

  lemma ReferenceMeans(ds: seq<QuestionDoc>, qs: seq<Question>, k: nat)
    requires AllMirror(ds, qs) && DistinctKeys(qs) && k < |ds|
    ensures GoodReference(qs, qs[k]) <==> RefersWell(ds, ds[k])
  {
    assert Mirrors(ds[k], qs[k]);
    if qs[k].showWhen.Some? {
      var key := qs[k].showWhen.value.key;
      AsksMeans(ds, qs, key);
      if i :| 0 <= i < |ds| && ds[i].key == Some(key) {
        assert Mirrors(ds[i], qs[i]);
        assert forall j :: 0 <= j < |qs| && qs[j].key == key ==> j == i;
        assert forall j :: 0 <= j < |ds| && ds[j].key == Some(key) ==> Mirrors(ds[j], qs[j]);
      }
    }
  }

  lemma FormMeans(doc: FormDoc, qs: seq<Question>)
    requires doc.questions.Some? && AllMirror(doc.questions.value, qs)
    ensures var ds := doc.questions.value;
            GoodForm(Form(doc.resumeRequired, doc.resumeAfter, qs)) <==>
              && ds != [] && (forall i, j :: 0 <= i < j < |ds| ==> ds[i].key != ds[j].key)
              && (forall i :: 0 <= i < |ds| ==> RefersWell(ds, ds[i]))
              && (doc.resumeAfter != None ==> Asks(ds, doc.resumeAfter.value))
  {
    var ds := doc.questions.value;
    DistinctMeans(ds, qs);
    if DistinctKeys(qs) {
      forall i | 0 <= i < |ds| ensures GoodReference(qs, qs[i]) <==> RefersWell(ds, ds[i]) {
        ReferenceMeans(ds, qs, i);
      }
    }
    if doc.resumeAfter.Some? { AsksMeans(ds, qs, doc.resumeAfter.value); }
  }

  /** A document is accepted for publication exactly if it is well-formed. */
  lemma PublishableMeans(doc: FormDoc)
    ensures Publishable(doc) <==> Wellformed(doc)
  {
    if doc.questions.Some? {
      var ds := doc.questions.value;
      forall i | 0 <= i < |ds| ensures GoodQuestion(ds[i]) <==> Askable(ds[i]) {
        QuestionMeans(ds[i]);
      }
      if forall i :: 0 <= i < |ds| ==> GoodQuestion(ds[i]) {
        ReadMirrors(ds);
        FormMeans(doc, ReadAll(ds));
      }
    }
  }

  /** The form that is read from a publishable document has its questions, in order and field by field. */
  lemma FormIsRead(doc: FormDoc)
    requires Publishable(doc)
    ensures AllMirror(doc.questions.value, ReadAll(doc.questions.value))
  {
    ReadMirrors(doc.questions.value);
  }

  // ---- Answers ----------------------------------------------------------------------------

  /** An answer the question takes: a text that is not too long, one of the options if there are any, and an address if
      one is asked for and it has a word; a number; or yes or no. */
  predicate Takes(q: Question, v: Raw, isAddress: string -> bool) {
    if q.kind == "string" then
      && v.Text? && (q.maxWords != None ==> Words(v.text) <= q.maxWords.value)
      && (q.options == [] || exists j :: 0 <= j < |q.options| && q.options[j] == v.text)
      && (q.control == Some("email") && Words(v.text) > 0 ==> isAddress(Trim(v.text)))
    else if q.kind == "number" then v.Number?
    else if q.kind == "boolean" then v.Flag?
    else !v.Malformed?
  }

  lemma ConformsMeans(q: Question, v: Raw, isAddress: string -> bool)
    ensures Conforms(q, v, isAddress) <==> Takes(q, v, isAddress)
  {
    if v.Text? { BlankHasNoWords(v.text); }
  }

  /** Unconditional, or its condition is met by an answer that was given. */
  predicate IsShown(q: Question, answers: map<string, Raw>) {
    q.showWhen == None
    || (q.showWhen.value.key in answers && answers[q.showWhen.value.key] == Flag(q.showWhen.value.equals))
  }

  /** Every answer is to a question of the form that is shown and takes it. */
  ghost predicate Fit(qs: seq<Question>, answers: map<string, Raw>, isAddress: string -> bool) {
    && (forall key :: key in answers ==> exists i :: 0 <= i < |qs| && qs[i].key == key)
    && (forall i :: 0 <= i < |qs| && qs[i].key in answers ==>
          IsShown(qs[i], answers) && Takes(qs[i], answers[qs[i].key], isAddress))
  }

  /** Every required question that is shown is answered, a text with at least one word. */
  predicate Full(qs: seq<Question>, answers: map<string, Raw>) {
    forall i :: 0 <= i < |qs| && qs[i].required && IsShown(qs[i], answers) ==>
      && qs[i].key in answers
      && (qs[i].kind == "string" ==> answers[qs[i].key].Text? && Words(answers[qs[i].key].text) > 0)
  }

  lemma AcceptsMeans(qs: seq<Question>, answers: map<string, Raw>, isAddress: string -> bool)
    requires DistinctKeys(qs)
    ensures Accepts(qs, answers, isAddress) <==> Fit(qs, answers, isAddress)
  {
    forall i | 0 <= i < |qs| ensures Asked(qs, qs[i].key) == Some(qs[i]) {
      AskedInForm(qs, i);
    }
    forall i | 0 <= i < |qs| && qs[i].key in answers
      ensures Admissible(qs, answers, qs[i].key, isAddress) <==> Takes(qs[i], answers[qs[i].key], isAddress)
    {
      ConformsMeans(qs[i], answers[qs[i].key], isAddress);
    }
  }

  lemma CompletenessMeans(qs: seq<Question>, answers: map<string, Raw>)
    requires DistinctKeys(qs)
    ensures Complete(qs, answers) <==> Full(qs, answers)
  {
    forall i | 0 <= i < |qs| ensures Asked(qs, qs[i].key) == Some(qs[i]) {
      AskedInForm(qs, i);
    }
    forall key | key in answers && answers[key].Text?
      ensures Blank(answers[key].text) <==> Words(answers[key].text) == 0
    {
      BlankHasNoWords(answers[key].text);
    }
  }

  /** Answers to a parsed form are fine as a draft exactly if they fit, and complete exactly if they are full as well;
      what does not fit is invalid, and what fits but is not full is incomplete where completeness is demanded. */
  lemma VerdictMeans(form: Form, answers: map<string, Raw>, requireRequired: bool, isAddress: string -> bool)
    requires GoodForm(form)
    ensures Judged(form, Some(answers), requireRequired, isAddress)
         == if !Fit(form.questions, answers, isAddress) then Invalid
            else if requireRequired && !Full(form.questions, answers) then Incomplete
            else Fine
  {
    AcceptsMeans(form.questions, answers, isAddress);
    CompletenessMeans(form.questions, answers);
  }

  /** Any single breach makes answers invalid: an unknown question, a hidden one, no text or too long a one, a text that
      is not among the options or not an address, no number, neither yes nor no. */
  lemma BreachIsInvalid(
    form: Form, answers: map<string, Raw>, requireRequired: bool, isAddress: string -> bool, key: string, i: nat)
    requires GoodForm(form) && key in answers && i < |form.questions|
    requires var q, v := form.questions[i], answers[key];
             || !HasQuestion(form.questions, key)
             || (q.key == key && q.showWhen.Some?
                 && Get(answers, q.showWhen.value.key) != Some(Flag(q.showWhen.value.equals)))
             || (q.key == key && q.kind == "string" && !v.Text?)
             || (q.key == key && q.kind == "string" && v.Text? && q.maxWords.Some? && Words(v.text) > q.maxWords.value)
             || (q.key == key && q.kind == "string" && v.Text? && q.options != [] && v.text !in q.options)
             || (q.key == key && q.kind == "string" && v.Text? && q.control == Some("email") && Words(v.text) > 0
                 && !isAddress(Trim(v.text)))
             || (q.key == key && q.kind == "number" && !v.Number?)
             || (q.key == key && q.kind == "boolean" && !v.Flag?)
    ensures Judged(form, Some(answers), requireRequired, isAddress) == Invalid
  {
    VerdictMeans(form, answers, requireRequired, isAddress);
  }
}
