/**
 * The question editor of the admin dashboard: how fetched question records are
 * normalised, how the answer choices and the tag and material selections of
 * the question being edited change, how a question is validated before it is
 * saved, and which tag and material associations are added and removed after
 * the save.
 */
module QuestionManagement {
  import opened Common
  import opened Collections
  import opened Text

  datatype Tag = Tag(id: int, name: string)

  datatype Material = Material(id: int, url: string, description: string)

  /** A question as the editor holds it; `id` is absent for a question not yet created. */
  datatype Question = Question(
    id: Option<int>,
    description: string,
    correctAnswer: string,
    answerChoices: seq<string>,
    hint: Option<string>,
    explanation: Option<string>,
    tags: seq<Tag>,
    materials: seq<Material>,
    createdAt: string,
    updatedAt: string,
    questionType: string)

  function TagId(t: Tag): int { t.id }

  function MaterialId(m: Material): int { m.id }

  const MultipleChoice: string := "multiple_choice"
  const TextInput: string := "text"

  /** The blank question the "Add New Question" button opens. */
  const NewQuestion: Question :=
    Question(None, "", "", [], Some(""), Some(""), [], [], "", "", MultipleChoice)

  // ---------------------------------------------------------------------------
  // Normalising fetched records
  // ---------------------------------------------------------------------------

  /** `AnswerChoices` as the backend may send it: an array, one comma-separated string, or anything else. */
  datatype RawChoices = ChoiceArray(items: seq<string>) | ChoiceText(text: string) | ChoiceOther

  /** `Tags` or `Materials` as the backend may send them: an array or anything else. */
  datatype RawList<T> = ListArray(items: seq<T>) | ListOther

  /** A question record as fetched; `questionType` is absent for any falsy non-string value. */
  datatype RawQuestion = RawQuestion(
    id: Option<int>,
    description: string,
    correctAnswer: string,
    answerChoices: RawChoices,
    hint: Option<string>,
    explanation: Option<string>,
    tags: RawList<Tag>,
    materials: RawList<Material>,
    createdAt: string,
    updatedAt: string,
    questionType: Option<string>)

  /** `pieces.map(s => s.trim())`. */
  function TrimEach(pieces: seq<string>): (r: seq<string>)
    ensures |r| == |pieces| && forall i :: 0 <= i < |pieces| ==> r[i] == Trim(pieces[i])
  {
    seq(|pieces|, i requires 0 <= i < |pieces| => Trim(pieces[i]))
  }

  /** `Boolean` on a string: it is truthy exactly when non-empty. */
  predicate NonEmpty(c: string) {
    c != ""
  }

  /**
   * `pieces.map(s => s.trim()).filter(Boolean)`, one piece at a time: a piece
   * that is blank is dropped, any other is kept trimmed, in its place.
   */
  function TrimNonEmpty(pieces: seq<string>): seq<string> {
    if pieces == [] then []
    else
      var t := Trim(pieces[0]);
      var rest := TrimNonEmpty(pieces[1..]);
      if t == "" then rest else [t] + rest
  }

  /** A result is the trimmed form of a non-blank piece, and every non-blank piece gives one. */
  lemma {:induction false} TrimNonEmptyMembers(pieces: seq<string>)
    ensures forall c :: c in TrimNonEmpty(pieces) <==> exists p :: p in pieces && !IsBlank(p) && c == Trim(p)
  {
    if pieces != [] {
      var rest := pieces[1..];
      TrimNonEmptyMembers(rest);
      forall c
        ensures c in TrimNonEmpty(pieces) <==> exists p :: p in pieces && !IsBlank(p) && c == Trim(p)
      {
        if c in TrimNonEmpty(pieces) && c !in TrimNonEmpty(rest) {
          assert c == Trim(pieces[0]) && !IsBlank(pieces[0]);
        }
        if exists p :: p in pieces && !IsBlank(p) && c == Trim(p) {
          var p :| p in pieces && !IsBlank(p) && c == Trim(p);
          if p != pieces[0] {
            assert p in rest;
          }
        }
      }
    }
  }

  /** The piece-by-piece definition is the map followed by the filter. */
  lemma {:induction false} TrimNonEmptyIsFilter(pieces: seq<string>)
    ensures TrimNonEmpty(pieces) == Filter(TrimEach(pieces), NonEmpty)
  {
    if pieces != [] {
      TrimNonEmptyIsFilter(pieces[1..]);
      var trimmed := TrimEach(pieces);
      assert trimmed[0] == Trim(pieces[0]);
      assert trimmed[1..] == TrimEach(pieces[1..]);
      FilterHead(trimmed, NonEmpty);
    }
  }

  /**
   * `text.split(',').map(s => s.trim()).filter(Boolean)`: a choice is the trimmed
   * form of a non-blank piece between commas, and every such piece gives one.
   */
  function ParseChoices(text: string): (r: seq<string>)
    ensures forall c :: c in r <==> exists p :: p in Split(text, ',') && !IsBlank(p) && c == Trim(p)
    ensures forall c :: c in r ==> c != "" && IsTrimmed(c) && ',' !in c
  {
    SplitPiecesFree(text, ',');
    TrimNonEmptyClean(Split(text, ','), ',');
    TrimNonEmptyMembers(Split(text, ','));
    TrimNonEmpty(Split(text, ','))
  }

  /** The choices keep the order of the pieces, and each trimmed piece as often as it occurs. */
  lemma ParseChoicesKeepOrder(text: string)
    ensures IsSubsequence(ParseChoices(text), TrimEach(Split(text, ',')))
    ensures forall c :: multiset(ParseChoices(text))[c] ==
                        if c != "" then multiset(TrimEach(Split(text, ',')))[c] else 0
  {
    var trimmed := TrimEach(Split(text, ','));
    TrimNonEmptyIsFilter(Split(text, ','));
    FilterIsSubsequence(trimmed, NonEmpty);
    FilterCounts(trimmed, NonEmpty);
  }

  /** Comma-separated pieces, padded or blank, parse to their trimmed non-blank forms in order. */
  lemma ParseChoicesOfPieces(pieces: seq<string>)
    requires |pieces| >= 1
    requires forall p :: p in pieces ==> ',' !in p
    ensures ParseChoices(Join(pieces, ',')) == TrimNonEmpty(pieces)
  {
    SplitJoin(pieces, ',');
  }

  /** For instance `"a, ,b "` gives `["a", "b"]`: padding is trimmed and the blank piece dropped. */
  lemma ParseChoicesExample()
    ensures ParseChoices("a, ,b ") == ["a", "b"]
  {
    var pieces := ["a", " ", "b "];
    JoinExample();
    ParseChoicesOfPieces(pieces);
    TrimNonEmptyExample();
  }

  lemma JoinExample()
    ensures Join(["a", " ", "b "], ',') == "a, ,b "
  {
    var pieces := ["a", " ", "b "];
    assert pieces[1..] == [" ", "b "] && pieces[1..][1..] == ["b "];
    assert Join(["b "], ',') == "b ";
    assert Join([" ", "b "], ',') == " ,b ";
  }

  lemma TrimNonEmptyExample()
    ensures TrimNonEmpty(["a", " ", "b "]) == ["a", "b"]
  {
    TrimNonEmptyExampleTail();
    var pieces := ["a", " ", "b "];
    assert pieces[0] == "a" && pieces[1..] == [" ", "b "];
    assert Trim("a") == "a" by { assert IsTrimmed("a"); }
    assert TrimNonEmpty(pieces) == [Trim("a")] + TrimNonEmpty([" ", "b "]);
    assert ["a"] + ["b"] == ["a", "b"];
  }

  lemma TrimNonEmptyExampleTail()
    ensures TrimNonEmpty([" ", "b "]) == ["b"]
  {
    TrimNonEmptyExampleLast();
    var pieces := [" ", "b "];
    assert pieces[0] == " " && pieces[1..] == ["b "];
    assert Trim(" ") == "" by { assert IsBlank(" "); }
    assert TrimNonEmpty(pieces) == TrimNonEmpty(["b "]);
  }

  lemma TrimNonEmptyExampleLast()
    ensures TrimNonEmpty(["b "]) == ["b"]
  {
    var pieces := ["b "];
    assert pieces[0] == "b " && pieces[1..] == [];
    assert Trim("b ") == "b" by {
      assert TrimStart("b ") == "b ";
      assert "b "[..1] == "b";
      assert TrimEnd("b ") == "b";
    }
    assert TrimNonEmpty(pieces) == [Trim("b ")] + TrimNonEmpty([]);
  }

  /** Trimming and dropping blanks leaves only non-empty, trimmed pieces, free of the separator when the pieces are. */
  lemma {:induction false} TrimNonEmptyClean(pieces: seq<string>, sep: char)
    requires forall p :: p in pieces ==> sep !in p
    ensures forall c :: c in TrimNonEmpty(pieces) ==> c != "" && IsTrimmed(c) && sep !in c
  {
    if pieces != [] {
      TrimNonEmptyClean(pieces[1..], sep);
      assert pieces[0] in pieces;
    }
  }

  /** Pieces that are already trimmed and non-empty pass through unchanged. */
  lemma {:induction false} TrimNonEmptyKeepsClean(pieces: seq<string>)
    requires forall c :: c in pieces ==> c != "" && IsTrimmed(c)
    ensures TrimNonEmpty(pieces) == pieces
  {
    if pieces != [] {
      assert forall c :: c in pieces[1..] ==> c in pieces;
      TrimNonEmptyKeepsClean(pieces[1..]);
      assert pieces[0] in pieces;
      assert pieces == [pieces[0]] + pieces[1..];
    }
  }

  /** Choices that are non-empty, trimmed and comma-free survive a join and a re-parse unchanged. */
  lemma ParseChoicesOfJoin(choices: seq<string>)
    requires forall c :: c in choices ==> c != "" && IsTrimmed(c) && ',' !in c
    ensures ParseChoices(Join(choices, ',')) == choices
  {
    if choices == [] {
      assert IndexOf("", ',') == 0;
      assert Split("", ',') == [""];
      assert Trim("") == "";
      assert TrimNonEmpty([""]) == TrimNonEmpty([]);
    } else {
      SplitJoin(choices, ',');
      TrimNonEmptyKeepsClean(choices);
    }
  }

  function NormalizeChoices(raw: RawChoices): seq<string> {
    match raw
    case ChoiceArray(items) => items
    case ChoiceText(text) => ParseChoices(text)
    case ChoiceOther => []
  }

  function NormalizeList<T>(raw: RawList<T>): seq<T> {
    match raw
    case ListArray(items) => items
    case ListOther => []
  }

  /** `q.Type || 'text'`. */
  function NormalizeType(raw: Option<string>): string {
    if raw.Some? && raw.value != "" then raw.value else TextInput
  }

  /** The record built for each fetched question: four fields repaired, the rest copied. */
  function Normalize(raw: RawQuestion): (q: Question)
    ensures q.id == raw.id && q.description == raw.description && q.correctAnswer == raw.correctAnswer
    ensures q.hint == raw.hint && q.explanation == raw.explanation
    ensures q.createdAt == raw.createdAt && q.updatedAt == raw.updatedAt
    ensures raw.answerChoices.ChoiceArray? ==> q.answerChoices == raw.answerChoices.items
    ensures raw.answerChoices.ChoiceText? ==> q.answerChoices == ParseChoices(raw.answerChoices.text)
    ensures raw.answerChoices.ChoiceOther? ==> q.answerChoices == []
    ensures q.tags == (if raw.tags.ListArray? then raw.tags.items else [])
    ensures q.materials == (if raw.materials.ListArray? then raw.materials.items else [])
    ensures q.questionType != ""
    ensures raw.questionType.Some? && raw.questionType.value != "" ==> q.questionType == raw.questionType.value
    ensures raw.questionType.None? || raw.questionType.value == "" ==> q.questionType == TextInput
  {
    Question(raw.id, raw.description, raw.correctAnswer, NormalizeChoices(raw.answerChoices),
             raw.hint, raw.explanation, NormalizeList(raw.tags), NormalizeList(raw.materials),
             raw.createdAt, raw.updatedAt, NormalizeType(raw.questionType))
  }

  /** The record a well-formed question would arrive as. */
  function AsRaw(q: Question): RawQuestion {
    RawQuestion(q.id, q.description, q.correctAnswer, ChoiceArray(q.answerChoices), q.hint,
                q.explanation, ListArray(q.tags), ListArray(q.materials), q.createdAt, q.updatedAt,
                Some(q.questionType))
  }

  /** Normalisation changes nothing in a record that is already well formed. */
  lemma NormalizeWellFormed(q: Question)
    requires q.questionType != ""
    ensures Normalize(AsRaw(q)) == q
  {
  }

  /** A question whose choices arrive as one comma-separated string gets them back as a list. */
  lemma NormalizeJoinedChoices(q: Question)
    requires q.questionType != ""
    requires forall c :: c in q.answerChoices ==> c != "" && IsTrimmed(c) && ',' !in c
    ensures Normalize(AsRaw(q).(answerChoices := ChoiceText(Join(q.answerChoices, ',')))) == q
  {
    ParseChoicesOfJoin(q.answerChoices);
  }

  function NormalizeAll(data: seq<RawQuestion>): (r: seq<Question>)
    ensures |r| == |data| && forall i :: 0 <= i < |r| ==> r[i] == Normalize(data[i])
  {
    seq(|data|, i requires 0 <= i < |data| => Normalize(data[i]))
  }

  // ---------------------------------------------------------------------------
  // Editing the answer choices
  // ---------------------------------------------------------------------------

  /** `[...choices, newChoice.trim()]`, unless the new choice is blank. */
  function AddChoice(choices: seq<string>, newChoice: string): (r: seq<string>)
    ensures IsBlank(newChoice) ==> r == choices
    ensures !IsBlank(newChoice) ==> |r| == |choices| + 1 && r[..|choices|] == choices
    ensures !IsBlank(newChoice) ==> r[|choices|] == Trim(newChoice) && r[|choices|] != "" && IsTrimmed(r[|choices|])
  {
    if IsBlank(newChoice) then choices else choices + [Trim(newChoice)]
  }

  /** Removing the choice just added gives the choices back. */
  lemma AddThenRemoveChoice(choices: seq<string>, newChoice: string)
    requires !IsBlank(newChoice)
    ensures RemoveAt(AddChoice(choices, newChoice), |choices|) == choices
  {
    assert AddChoice(choices, newChoice)[..|choices|] == choices;
  }

  /**
   * Removes the choice at `index`; the correct answer is cleared when it was the
   * removed choice.
   */
  function RemoveChoice(q: Question, index: nat): (r: Question)
    ensures r.answerChoices == RemoveAt(q.answerChoices, index)
    ensures r.correctAnswer == "" <==>
              q.correctAnswer == "" || (index < |q.answerChoices| && q.answerChoices[index] == q.correctAnswer)
    ensures r.correctAnswer != "" ==> r.correctAnswer == q.correctAnswer
    ensures r == q.(answerChoices := r.answerChoices, correctAnswer := r.correctAnswer)
  {
    var choices := RemoveAt(q.answerChoices, index);
    if index < |q.answerChoices| && q.correctAnswer == q.answerChoices[index] then
      q.(answerChoices := choices, correctAnswer := "")
    else
      q.(answerChoices := choices)
  }

  /** The form inputs wired to `handleInputChange`, by their `name`. */
  datatype QuestionField = TypeField | DescriptionField | CorrectAnswerField | HintField | ExplanationField

  /** `{ ...q, [name]: value }`: the named field takes the typed text, every other field is kept. */
  function SetField(q: Question, field: QuestionField, value: string): (r: Question)
    ensures r.id == q.id && r.answerChoices == q.answerChoices && r.tags == q.tags && r.materials == q.materials
    ensures r.createdAt == q.createdAt && r.updatedAt == q.updatedAt
    ensures r.questionType == (if field == TypeField then value else q.questionType)
    ensures r.description == (if field == DescriptionField then value else q.description)
    ensures r.correctAnswer == (if field == CorrectAnswerField then value else q.correctAnswer)
    ensures r.hint == (if field == HintField then Some(value) else q.hint)
    ensures r.explanation == (if field == ExplanationField then Some(value) else q.explanation)
  {
    match field
    case TypeField => q.(questionType := value)
    case DescriptionField => q.(description := value)
    case CorrectAnswerField => q.(correctAnswer := value)
    case HintField => q.(hint := Some(value))
    case ExplanationField => q.(explanation := Some(value))
  }

  // ---------------------------------------------------------------------------
  // Validation before saving
  // ---------------------------------------------------------------------------

  const ErrTooFewChoices: string := "Multiple choice questions must have at least 2 answer choices."
  const ErrNoCorrectAnswer: string := "Please select a correct answer for this multiple choice question."
  const ErrCorrectNotAChoice: string := "The correct answer must be one of the answer choices."
  const ErrAuthRequired: string := "Authentication required."

  /** The message a save is refused with, checked in the source's order; `None` lets the save go on. */
  function ValidateQuestion(q: Question): (err: Option<string>)
    ensures q.questionType != MultipleChoice ==> err.None?
    ensures err.None? <==>
              q.questionType != MultipleChoice ||
              (|q.answerChoices| >= 2 && q.correctAnswer != "" && q.correctAnswer in q.answerChoices)
    ensures err == Some(ErrTooFewChoices) <==>
              q.questionType == MultipleChoice && |q.answerChoices| < 2
    ensures err == Some(ErrNoCorrectAnswer) <==>
              q.questionType == MultipleChoice && |q.answerChoices| >= 2 && q.correctAnswer == ""
    ensures err == Some(ErrCorrectNotAChoice) <==>
              q.questionType == MultipleChoice && |q.answerChoices| >= 2 && q.correctAnswer != "" &&
              q.correctAnswer !in q.answerChoices
  {
    if q.questionType == MultipleChoice then
      if |q.answerChoices| < 2 then Some(ErrTooFewChoices)
      else if q.correctAnswer == "" then Some(ErrNoCorrectAnswer)
      else if q.correctAnswer !in q.answerChoices then Some(ErrCorrectNotAChoice)
      else None
    else None
  }

  /** Adding a choice never makes a question that passed validation fail it. */
  lemma AddChoiceKeepsValid(q: Question, newChoice: string)
    requires ValidateQuestion(q).None?
    ensures ValidateQuestion(q.(answerChoices := AddChoice(q.answerChoices, newChoice))).None?
  {
    var c := AddChoice(q.answerChoices, newChoice);
    if !IsBlank(newChoice) && q.questionType == MultipleChoice {
      assert c[..|q.answerChoices|] == q.answerChoices;
      var k :| 0 <= k < |q.answerChoices| && q.answerChoices[k] == q.correctAnswer;
      assert c[k] == q.correctAnswer;
    }
  }

  /** Removing the correct answer of a multiple choice question makes the next save fail, with the first check that applies. */
  lemma RemovingCorrectAnswerBlocksSave(q: Question, index: nat)
    requires q.questionType == MultipleChoice
    requires index < |q.answerChoices| && q.answerChoices[index] == q.correctAnswer
    ensures ValidateQuestion(RemoveChoice(q, index)) ==
              Some(if |q.answerChoices| - 1 < 2 then ErrTooFewChoices else ErrNoCorrectAnswer)
  {
  }

  /** Switching a question to text input lifts every choice check. */
  lemma TextQuestionPassesValidation(q: Question)
    ensures ValidateQuestion(SetField(q, TypeField, TextInput)).None?
  {
  }

  /** Typing into the description, the hint or the explanation never changes the outcome of validation. */
  lemma TextEditKeepsValidation(q: Question, field: QuestionField, value: string)
    requires field == DescriptionField || field == HintField || field == ExplanationField
    ensures ValidateQuestion(SetField(q, field, value)) == ValidateQuestion(q)
  {
  }

  // ---------------------------------------------------------------------------
  // The save request
  // ---------------------------------------------------------------------------

  const QuestionsPath: string := "/v1/api/questions"

  /** The body sent on save; tags and materials travel separately. */
  datatype QuestionPayload = QuestionPayload(
    description: string,
    correctAnswer: string,
    answerChoices: seq<string>,
    hint: Option<string>,
    explanation: Option<string>,
    questionType: string)

  datatype SaveRequest = SaveRequest(verb: HttpMethod, url: string, payload: QuestionPayload)

  /** `s || null`: an empty string is sent as null. */
  function OrNull(s: Option<string>): (r: Option<string>)
    ensures r.Some? <==> s.Some? && s.value != ""
    ensures r.Some? ==> r == s
  {
    if s.Some? && s.value != "" then s else None
  }

  /** The request `handleSave` sends: PUT to the question's URL for an existing question, POST otherwise. */
  function QuestionSaveRequest(backendUrl: string, q: Question): (r: SaveRequest)
    ensures r.verb == Put <==> q.id.Some?
    ensures q.id.Some? ==> r.url == backendUrl + QuestionsPath + "/" + IntToString(q.id.value)
    ensures q.id.None? ==> r.url == backendUrl + QuestionsPath
    ensures r.payload.description == q.description && r.payload.correctAnswer == q.correctAnswer
    ensures r.payload.answerChoices == q.answerChoices && r.payload.questionType == q.questionType
    ensures r.payload.hint == OrNull(q.hint) && r.payload.explanation == OrNull(q.explanation)
  {
    var payload := QuestionPayload(q.description, q.correctAnswer, q.answerChoices, OrNull(q.hint),
                                   OrNull(q.explanation), q.questionType);
    match q.id
    case Some(id) => SaveRequest(Put, backendUrl + QuestionsPath + "/" + IntToString(id), payload)
    case None => SaveRequest(Post, backendUrl + QuestionsPath, payload)
  }

  /** Two updates sent to the same URL are updates of the same question. */
  lemma SaveUrlIdentifiesQuestion(backendUrl: string, q1: Question, q2: Question)
    requires q1.id.Some? && q2.id.Some?
    requires QuestionSaveRequest(backendUrl, q1).url == QuestionSaveRequest(backendUrl, q2).url
    ensures q1.id == q2.id
  {
    var prefix := backendUrl + QuestionsPath + "/";
    var u1 := QuestionSaveRequest(backendUrl, q1).url;
    var u2 := QuestionSaveRequest(backendUrl, q2).url;
    assert u1 == prefix + IntToString(q1.id.value) && u1[|prefix|..] == IntToString(q1.id.value);
    assert u2 == prefix + IntToString(q2.id.value) && u2[|prefix|..] == IntToString(q2.id.value);
    IntToStringInjective(q1.id.value, q2.id.value);
  }

  // ---------------------------------------------------------------------------
  // Tag and material associations after the save
  // ---------------------------------------------------------------------------

  /** `xs.filter(id => !ys.includes(id))`. */
  function Difference(xs: seq<int>, ys: seq<int>): (r: seq<int>)
    ensures forall id :: id in r <==> id in xs && id !in ys
  {
    Filter(xs, (id: int) => id !in ys)
  }

  /** The IDs to add and the IDs to remove never overlap. */
  lemma DifferencesDisjoint(current: seq<int>, original: seq<int>)
    ensures forall id :: !(id in Difference(current, original) && id in Difference(original, current))
  {
  }

  /** The diff keeps the order of the list it is taken from; against nothing it is the whole list. */
  lemma DifferenceOrder(xs: seq<int>, ys: seq<int>)
    ensures IsSubsequence(Difference(xs, ys), xs)
    ensures Difference(xs, []) == xs
    ensures Difference([], ys) == []
    ensures forall id :: multiset(Difference(xs, ys))[id] == if id !in ys then multiset(xs)[id] else 0
  {
    FilterIsSubsequence(xs, (id: int) => id !in ys);
    FilterCounts(xs, (id: int) => id !in ys);
    FilterKeepsAll(xs, (id: int) => id !in []);
  }

  /** `questions.find(q => q.ID === current.ID)`, looked up only for a question being updated. */
  function OriginalOf(questions: seq<Question>, current: Question): (r: Option<Question>)
    ensures r.Some? ==> r.value in questions && r.value.id == current.id && current.id.Some?
    ensures r.Some? ==> exists k :: 0 <= k < |questions| && questions[k] == r.value &&
                          forall j :: 0 <= j < k ==> questions[j].id != current.id
    ensures r.None? <==> current.id.None? || forall i :: 0 <= i < |questions| ==> questions[i].id != current.id
  {
    if current.id.Some? then FindFirst(questions, (q: Question) => q.id == current.id) else None
  }

  function TagIdsOf(q: Option<Question>): seq<int> {
    if q.Some? then Keys(q.value.tags, TagId) else []
  }

  function MaterialIdsOf(q: Option<Question>): seq<int> {
    if q.Some? then Keys(q.value.materials, MaterialId) else []
  }

  /** The `type` path segment of an association call. */
  datatype Link = TagLink | MaterialLink

  /** The last path segment of an association call: `add` or `remove`. */
  datatype LinkOp = Associate | Disassociate

  /** `POST .../questions/{questionId}/{link}/{itemId}/{op}`. */
  datatype AssociationCall = AssociationCall(op: LinkOp, questionId: int, link: Link, itemId: int)

  function CallsFor(op: LinkOp, questionId: int, link: Link, ids: seq<int>): (r: seq<AssociationCall>)
    ensures |r| == |ids| && forall i :: 0 <= i < |ids| ==> r[i] == AssociationCall(op, questionId, link, ids[i])
  {
    seq(|ids|, i requires 0 <= i < |ids| => AssociationCall(op, questionId, link, ids[i]))
  }

  /** The IDs of the tags or the materials the edited question holds. */
  function HeldIds(link: Link, current: Question): seq<int> {
    if link == TagLink then Keys(current.tags, TagId) else Keys(current.materials, MaterialId)
  }

  /** The IDs of the tags or the materials the loaded question had. */
  function LoadedIds(link: Link, original: Option<Question>): seq<int> {
    if link == TagLink then TagIdsOf(original) else MaterialIdsOf(original)
  }

  /** The association calls `handleSave` makes, in order: tags added, tags removed, materials added, materials removed. */
  function PlannedCalls(questionId: int, current: Question, original: Option<Question>): (r: seq<AssociationCall>)
    ensures forall c :: c in r ==> c.questionId == questionId
  {
    var currentTags := Keys(current.tags, TagId);
    var originalTags := TagIdsOf(original);
    var currentMaterials := Keys(current.materials, MaterialId);
    var originalMaterials := MaterialIdsOf(original);
    CallsFor(Associate, questionId, TagLink, Difference(currentTags, originalTags)) +
    CallsFor(Disassociate, questionId, TagLink, Difference(originalTags, currentTags)) +
    CallsFor(Associate, questionId, MaterialLink, Difference(currentMaterials, originalMaterials)) +
    CallsFor(Disassociate, questionId, MaterialLink, Difference(originalMaterials, currentMaterials))
  }

  /** A call is in a batch for `ids` exactly when it carries the batch's operation, question and kind, and one of the IDs. */
  lemma InCallsFor(op: LinkOp, questionId: int, link: Link, ids: seq<int>, c: AssociationCall)
    ensures c in CallsFor(op, questionId, link, ids) <==>
              c.op == op && c.questionId == questionId && c.link == link && c.itemId in ids
  {
    var r := CallsFor(op, questionId, link, ids);
    if c.op == op && c.questionId == questionId && c.link == link && c.itemId in ids {
      var i :| 0 <= i < |ids| && ids[i] == c.itemId;
      assert r[i] == c;
    }
  }

  /** Every planned call is needed, and every needed change has its call. */
  lemma PlannedCallsNeeded(questionId: int, current: Question, original: Option<Question>, c: AssociationCall)
    ensures c in PlannedCalls(questionId, current, original) <==>
              c.questionId == questionId &&
              (c.op == Associate ==> c.itemId in HeldIds(c.link, current) && c.itemId !in LoadedIds(c.link, original)) &&
              (c.op == Disassociate ==> c.itemId in LoadedIds(c.link, original) && c.itemId !in HeldIds(c.link, current))
  {
    var currentTags := Keys(current.tags, TagId);
    var originalTags := TagIdsOf(original);
    var currentMaterials := Keys(current.materials, MaterialId);
    var originalMaterials := MaterialIdsOf(original);
    InCallsFor(Associate, questionId, TagLink, Difference(currentTags, originalTags), c);
    InCallsFor(Disassociate, questionId, TagLink, Difference(originalTags, currentTags), c);
    InCallsFor(Associate, questionId, MaterialLink, Difference(currentMaterials, originalMaterials), c);
    InCallsFor(Disassociate, questionId, MaterialLink, Difference(originalMaterials, currentMaterials), c);
  }

  /** The sets of tag and material IDs associated with a question on the backend. */
  datatype Links = Links(tags: set<int>, materials: set<int>)

  function SetOf(ids: seq<int>): set<int> {
    set id | id in ids
  }

  function LinksOf(q: Option<Question>): Links {
    Links(SetOf(TagIdsOf(q)), SetOf(MaterialIdsOf(q)))
  }

  /** What one association call does to the backend's association sets. */
  function ApplyCall(links: Links, c: AssociationCall): Links {
    match (c.link, c.op)
    case (TagLink, Associate) => links.(tags := links.tags + {c.itemId})
    case (TagLink, Disassociate) => links.(tags := links.tags - {c.itemId})
    case (MaterialLink, Associate) => links.(materials := links.materials + {c.itemId})
    case (MaterialLink, Disassociate) => links.(materials := links.materials - {c.itemId})
  }

  function ApplyCalls(links: Links, calls: seq<AssociationCall>): Links
    decreases |calls|
  {
    if calls == [] then links else ApplyCalls(ApplyCall(links, calls[0]), calls[1..])
  }

  lemma {:induction false} ApplyCallsAppend(links: Links, a: seq<AssociationCall>, b: seq<AssociationCall>)
    ensures ApplyCalls(links, a + b) == ApplyCalls(ApplyCalls(links, a), b)
    decreases |a|
  {
    if a == [] {
      assert a + b == b;
    } else {
      assert (a + b)[0] == a[0] && (a + b)[1..] == a[1..] + b;
      ApplyCallsAppend(ApplyCall(links, a[0]), a[1..], b);
    }
  }

  /** A run of calls of one kind adds, or removes, exactly its IDs from the matching set. */
  lemma {:induction false} ApplyCallsFor(links: Links, op: LinkOp, questionId: int, link: Link, ids: seq<int>)
    ensures ApplyCalls(links, CallsFor(op, questionId, link, ids)) ==
              match (link, op)
              case (TagLink, Associate) => links.(tags := links.tags + SetOf(ids))
              case (TagLink, Disassociate) => links.(tags := links.tags - SetOf(ids))
              case (MaterialLink, Associate) => links.(materials := links.materials + SetOf(ids))
              case (MaterialLink, Disassociate) => links.(materials := links.materials - SetOf(ids))
    decreases |ids|
  {
    var calls := CallsFor(op, questionId, link, ids);
    if ids != [] {
      assert calls[0] == AssociationCall(op, questionId, link, ids[0]);
      assert calls[1..] == CallsFor(op, questionId, link, ids[1..]);
      ApplyCallsFor(ApplyCall(links, calls[0]), op, questionId, link, ids[1..]);
      assert SetOf(ids) == {ids[0]} + SetOf(ids[1..]);
    } else {
      assert SetOf(ids) == {};
    }
  }

  /**
   * Applying the planned calls to the associations the question had when it was
   * loaded yields exactly the associations the editor shows.
   */
  lemma PlannedCallsReachEdit(questionId: int, current: Question, original: Option<Question>)
    ensures ApplyCalls(LinksOf(original), PlannedCalls(questionId, current, original)) ==
              Links(SetOf(Keys(current.tags, TagId)), SetOf(Keys(current.materials, MaterialId)))
  {
    var ct := Keys(current.tags, TagId);
    var ot := TagIdsOf(original);
    var cm := Keys(current.materials, MaterialId);
    var om := MaterialIdsOf(original);
    var a := CallsFor(Associate, questionId, TagLink, Difference(ct, ot));
    var b := CallsFor(Disassociate, questionId, TagLink, Difference(ot, ct));
    var c := CallsFor(Associate, questionId, MaterialLink, Difference(cm, om));
    var d := CallsFor(Disassociate, questionId, MaterialLink, Difference(om, cm));
    var l0 := LinksOf(original);
    ApplyCallsAppend(l0, a + b + c, d);
    ApplyCallsAppend(l0, a + b, c);
    ApplyCallsAppend(l0, a, b);
    ApplyCallsFor(l0, Associate, questionId, TagLink, Difference(ct, ot));
    var l1 := ApplyCalls(l0, a);
    ApplyCallsFor(l1, Disassociate, questionId, TagLink, Difference(ot, ct));
    var l2 := ApplyCalls(l1, b);
    ApplyCallsFor(l2, Associate, questionId, MaterialLink, Difference(cm, om));
    var l3 := ApplyCalls(l2, c);
    ApplyCallsFor(l3, Disassociate, questionId, MaterialLink, Difference(om, cm));
    assert l2.tags == SetOf(ct);
    assert ApplyCalls(l3, d).materials == SetOf(cm);
  }

  /** For a new question nothing is removed and every selected tag and material is added. */
  lemma PlannedCallsForNewQuestion(questionId: int, current: Question)
    ensures PlannedCalls(questionId, current, None) ==
              CallsFor(Associate, questionId, TagLink, Keys(current.tags, TagId)) +
              CallsFor(Associate, questionId, MaterialLink, Keys(current.materials, MaterialId))
  {
    DifferenceOrder(Keys(current.tags, TagId), []);
    DifferenceOrder(Keys(current.materials, MaterialId), []);
    assert CallsFor(Disassociate, questionId, TagLink, []) == [];
    assert CallsFor(Disassociate, questionId, MaterialLink, []) == [];
  }

  /** One `for ... of` loop of `handleSave`: appends a call per ID, in order. */
  method AppendCalls(calls: seq<AssociationCall>, op: LinkOp, questionId: int, link: Link, ids: seq<int>)
    returns (r: seq<AssociationCall>)
    ensures r == calls + CallsFor(op, questionId, link, ids)
  {
    r := calls;
    for i := 0 to |ids|
      invariant r == calls + CallsFor(op, questionId, link, ids[..i])
    {
      assert CallsFor(op, questionId, link, ids[..i + 1]) ==
             CallsFor(op, questionId, link, ids[..i]) + [AssociationCall(op, questionId, link, ids[i])];
      r := r + [AssociationCall(op, questionId, link, ids[i])];
    }
    assert ids[..|ids|] == ids;
  }

  /** The four association loops of `handleSave`, issuing the calls in the order the source makes them. */
  method AssociationCalls(questionId: int, current: Question, original: Option<Question>)
    returns (calls: seq<AssociationCall>)
    ensures calls == PlannedCalls(questionId, current, original)
  {
    var currentTagIds := Keys(current.tags, TagId);
    var originalTagIds := TagIdsOf(original);
    var tagsToAdd := Difference(currentTagIds, originalTagIds);
    var tagsToRemove := Difference(originalTagIds, currentTagIds);
    var currentMaterialIds := Keys(current.materials, MaterialId);
    var originalMaterialIds := MaterialIdsOf(original);
    var materialsToAdd := Difference(currentMaterialIds, originalMaterialIds);
    var materialsToRemove := Difference(originalMaterialIds, currentMaterialIds);
    calls := AppendCalls([], Associate, questionId, TagLink, tagsToAdd);
    calls := AppendCalls(calls, Disassociate, questionId, TagLink, tagsToRemove);
    calls := AppendCalls(calls, Associate, questionId, MaterialLink, materialsToAdd);
    calls := AppendCalls(calls, Disassociate, questionId, MaterialLink, materialsToRemove);
  }

  // ---------------------------------------------------------------------------
  // Selecting tags and materials
  // ---------------------------------------------------------------------------

  /**
   * `handleTagSelectionChange` / `handleMaterialSelectionChange`: selecting
   * appends the first catalogue entry with the ID unless one is already
   * selected; deselecting drops every selected entry with the ID.
   */
  function ToggleSelection<T(==,!new)>(selected: seq<T>, all: seq<T>, key: T -> int, id: int, isSelected: bool)
    : (r: seq<T>)
    ensures isSelected && HasKey(all, key, id) && !HasKey(selected, key, id) ==>
              |r| == |selected| + 1 && r[..|selected|] == selected &&
              exists k :: 0 <= k < |all| && r[|selected|] == all[k] && key(all[k]) == id &&
                          forall j :: 0 <= j < k ==> key(all[j]) != id
    ensures isSelected && (!HasKey(all, key, id) || HasKey(selected, key, id)) ==> r == selected
    ensures !isSelected ==> !HasKey(r, key, id)
    ensures !isSelected ==> forall x :: x in r <==> x in selected && key(x) != id
  {
    if isSelected then
      var found := FindFirst(all, (t: T) => key(t) == id);
      if found.Some? && !HasKey(selected, key, id) then selected + [found.value] else selected
    else
      var r := Filter(selected, (t: T) => key(t) != id);
      assert forall i :: 0 <= i < |r| ==> r[i] in r;
      r
  }

  /** Deselecting keeps the other selected entries in their order. */
  lemma DeselectKeepsOrder<T(!new)>(selected: seq<T>, all: seq<T>, key: T -> int, id: int)
    ensures IsSubsequence(ToggleSelection(selected, all, key, id, false), selected)
    ensures forall x :: multiset(ToggleSelection(selected, all, key, id, false))[x] ==
                        if key(x) != id then multiset(selected)[x] else 0
  {
    FilterIsSubsequence(selected, (t: T) => key(t) != id);
    FilterCounts(selected, (t: T) => key(t) != id);
  }

  /** Selection never introduces a duplicate ID. */
  lemma ToggleKeepsDistinct<T(!new)>(selected: seq<T>, all: seq<T>, key: T -> int, id: int, isSelected: bool)
    requires DistinctKeys(selected, key)
    ensures DistinctKeys(ToggleSelection(selected, all, key, id, isSelected), key)
  {
    if isSelected {
      var found := FindFirst(all, (t: T) => key(t) == id);
      if found.Some? && !HasKey(selected, key, id) {
        AppendKeepsDistinct(selected, found.value, key);
      }
    } else {
      FilterKeepsDistinct(selected, (t: T) => key(t) != id, key);
    }
  }

  /** Selecting an ID that was not selected and deselecting it again restores the selection. */
  lemma SelectThenDeselect<T(!new)>(selected: seq<T>, all: seq<T>, key: T -> int, id: int)
    requires !HasKey(selected, key, id)
    ensures ToggleSelection(ToggleSelection(selected, all, key, id, true), all, key, id, false) == selected
  {
    var p := (t: T) => key(t) != id;
    assert forall x :: x in selected ==> p(x);
    FilterKeepsAll(selected, p);
    var found := FindFirst(all, (t: T) => key(t) == id);
    if found.Some? {
      FilterAppend(selected, [found.value], p);
      assert Filter([found.value], p) == [];
    }
  }

  // ---------------------------------------------------------------------------
  // Searching tags
  // ---------------------------------------------------------------------------

  function MatchingTags(tags: seq<Tag>, loweredQuery: string): seq<Tag> {
    Filter(tags, (t: Tag) => Contains(Lower(t.name), loweredQuery))
  }

  /** `filteredTags`: a blank query shows every tag, otherwise a case-insensitive substring match on the name. */
  function FilteredTags(allTags: seq<Tag>, query: string): (r: seq<Tag>)
    ensures IsBlank(query) ==> r == allTags
    ensures !IsBlank(query) ==> forall t :: t in r <==> t in allTags && Contains(Lower(t.name), Lower(query))
  {
    if IsBlank(query) then allTags else MatchingTags(allTags, Lower(query))
  }

  /** The search result keeps the tags in catalogue order. */
  lemma FilteredTagsKeepOrder(allTags: seq<Tag>, query: string)
    ensures IsSubsequence(FilteredTags(allTags, query), allTags)
    ensures forall t :: multiset(FilteredTags(allTags, query))[t] ==
                        if IsBlank(query) || Contains(Lower(t.name), Lower(query)) then multiset(allTags)[t] else 0
  {
    if !IsBlank(query) {
      FilterIsSubsequence(allTags, (t: Tag) => Contains(Lower(t.name), Lower(query)));
      FilterCounts(allTags, (t: Tag) => Contains(Lower(t.name), Lower(query)));
    } else {
      SubsequenceOfItself(allTags);
    }
  }

  lemma {:induction false} SubsequenceOfItself<T>(s: seq<T>)
    ensures IsSubsequence(s, s)
  {
    if s != [] {
      SubsequenceOfItself(s[1..]);
    }
  }

  /** The search does not depend on the case of the query. */
  lemma FilteredTagsIgnoreQueryCase(allTags: seq<Tag>, query: string)
    ensures FilteredTags(allTags, Lower(query)) == FilteredTags(allTags, query)
  {
    LowerKeepsBlank(query);
    LowerIdempotent(query);
  }

  /** A tag is found exactly when the lower-cased query occurs in its lower-cased name. */
  lemma FilteredTagsMatchSubstring(allTags: seq<Tag>, query: string, t: Tag)
    requires !IsBlank(query) && t in allTags
    ensures t in FilteredTags(allTags, query) <==> exists i: nat :: OccursAt(Lower(t.name), Lower(query), i)
  {
    ContainsIffOccurs(Lower(t.name), Lower(query));
  }

  // ---------------------------------------------------------------------------
  // The editor's state
  // ---------------------------------------------------------------------------

  /** The edited question with its choice list replaced; no question stays no question. */
  function WithChoices(current: Option<Question>, choices: seq<string>): (r: Option<Question>)
    ensures r.Some? <==> current.Some?
    ensures r.Some? ==> r.value.answerChoices == choices
  {
    if current.Some? then Some(current.value.(answerChoices := choices)) else None
  }

  /**
   * The state hooks of the question editor. Each method is one event handler;
   * backend responses and the availability of credentials are parameters.
   */
  class QuestionEditor {
    const allTags: seq<Tag>
    const allMaterials: seq<Material>
    var questions: seq<Question>
    var loading: bool
    var error: Option<string>
    var modalError: Option<string>
    var isModalOpen: bool
    var currentQuestion: Option<Question>
    var isSaving: bool
    var newChoice: string
    var tagSearchQuery: string

    /** The edit modal is open exactly when a question is being edited. */
    ghost predicate Valid()
      reads this
    {
      isModalOpen <==> currentQuestion.Some?
    }

    constructor(allTags: seq<Tag>, allMaterials: seq<Material>)
      ensures Valid()
      ensures this.allTags == allTags && this.allMaterials == allMaterials
      ensures questions == [] && !loading && error.None? && modalError.None?
      ensures !isModalOpen && currentQuestion.None? && !isSaving && newChoice == "" && tagSearchQuery == ""
    {
      this.allTags := allTags;
      this.allMaterials := allMaterials;
      questions := [];
      loading := false;
      error := None;
      modalError := None;
      isModalOpen := false;
      currentQuestion := None;
      isSaving := false;
      newChoice := "";
      tagSearchQuery := "";
    }

    /** `fetchQuestions`, given the backend's answer (`Ok(None)` is a null body). */
    method FetchQuestions(backendUrl: string, authorized: bool, response: Result<Option<seq<RawQuestion>>>)
      modifies this`questions, this`loading, this`error
      ensures backendUrl == "" ==> unchanged(this)
      ensures backendUrl != "" && !authorized ==>
                error == Some(ErrAuthRequired) && questions == old(questions) && loading == old(loading)
      ensures backendUrl != "" && authorized ==> !loading
      ensures backendUrl != "" && authorized && response.Ok? ==>
                error.None? && questions == NormalizeAll(response.value.GetOr([]))
      ensures backendUrl != "" && authorized && response.Err? ==>
                error == Some(response.message) && questions == []
    {
      if backendUrl == "" {
        return;
      }
      if !authorized {
        error := Some(ErrAuthRequired);
        return;
      }
      loading := true;
      error := None;
      match response {
        case Ok(data) =>
          questions := NormalizeAll(data.GetOr([]));
        case Err(message) =>
          error := Some(message);
          questions := [];
      }
      loading := false;
    }

    /** `openModal`: a copy of the given question, or a blank multiple choice question. */
    method OpenModal(question: Option<Question>)
      modifies this`currentQuestion, this`modalError, this`newChoice, this`tagSearchQuery, this`isModalOpen
      ensures Valid()
      ensures currentQuestion == Some(question.GetOr(NewQuestion))
      ensures modalError.None? && newChoice == "" && tagSearchQuery == "" && isModalOpen
    {
      currentQuestion := Some(question.GetOr(NewQuestion));
      modalError := None;
      newChoice := "";
      tagSearchQuery := "";
      isModalOpen := true;
    }

    /** `closeModal`; the tag search text is kept. */
    method CloseModal()
      modifies this`isModalOpen, this`currentQuestion, this`modalError, this`newChoice
      ensures Valid()
      ensures !isModalOpen && currentQuestion.None? && modalError.None? && newChoice == ""
    {
      isModalOpen := false;
      currentQuestion := None;
      modalError := None;
      newChoice := "";
    }

    /** The new-choice input's `onChange`. */
    method SetNewChoice(text: string)
      modifies this`newChoice
      ensures newChoice == text
    {
      newChoice := text;
    }

    /** The tag search input's `onChange`. */
    method SetTagSearchQuery(text: string)
      modifies this`tagSearchQuery
      ensures tagSearchQuery == text
    {
      tagSearchQuery := text;
    }

    /** The tags the editor lists for the current search text. */
    function VisibleTags(): (r: seq<Tag>)
      reads this
      ensures forall t :: t in r ==> t in allTags
    {
      FilteredTags(allTags, tagSearchQuery)
    }

    /** `handleInputChange` for the input named by `field`. */
    method ChangeField(field: QuestionField, value: string)
      requires Valid()
      modifies this`currentQuestion
      ensures Valid()
      ensures old(currentQuestion).None? ==> currentQuestion.None?
      ensures old(currentQuestion).Some? ==> currentQuestion == Some(SetField(old(currentQuestion).value, field, value))
    {
      if currentQuestion.None? {
        return;
      }
      currentQuestion := Some(SetField(currentQuestion.value, field, value));
    }

    /** `handleAddChoice`. */
    method AddNewChoice()
      requires Valid()
      modifies this`currentQuestion, this`newChoice
      ensures Valid()
      ensures old(currentQuestion).None? || IsBlank(old(newChoice)) ==>
                currentQuestion == old(currentQuestion) && newChoice == old(newChoice)
      ensures old(currentQuestion).Some? && !IsBlank(old(newChoice)) ==>
                currentQuestion == Some(old(currentQuestion).value.(answerChoices :=
                  AddChoice(old(currentQuestion).value.answerChoices, old(newChoice)))) &&
                newChoice == ""
    {
      if currentQuestion.None? || IsBlank(newChoice) {
        return;
      }
      var q := currentQuestion.value;
      currentQuestion := Some(q.(answerChoices := AddChoice(q.answerChoices, newChoice)));
      newChoice := "";
    }

    /** `handleRemoveChoice`. */
    method RemoveChoiceAt(index: nat)
      requires Valid()
      modifies this`currentQuestion
      ensures Valid()
      ensures old(currentQuestion).None? ==> currentQuestion.None?
      ensures old(currentQuestion).Some? ==> currentQuestion == Some(RemoveChoice(old(currentQuestion).value, index))
    {
      if currentQuestion.None? {
        return;
      }
      currentQuestion := Some(RemoveChoice(currentQuestion.value, index));
    }

    /** `handleSetCorrectAnswer`. */
    method SetCorrectAnswer(choice: string)
      requires Valid()
      modifies this`currentQuestion
      ensures Valid()
      ensures old(currentQuestion).None? ==> currentQuestion.None?
      ensures old(currentQuestion).Some? ==> currentQuestion == Some(old(currentQuestion).value.(correctAnswer := choice))
    {
      if currentQuestion.None? {
        return;
      }
      currentQuestion := Some(currentQuestion.value.(correctAnswer := choice));
    }

    /** `handleAnswerChoicesChange`: the whole list typed as comma-separated text. */
    method ChangeAnswerChoices(text: string)
      requires Valid()
      modifies this`currentQuestion
      ensures Valid()
      ensures currentQuestion == WithChoices(old(currentQuestion), ParseChoices(text))
    {
      currentQuestion := WithChoices(currentQuestion, ParseChoices(text));
    }

    /** `handleTagSelectionChange`. */
    method ChangeTagSelection(tagId: int, isSelected: bool)
      requires Valid()
      modifies this`currentQuestion
      ensures Valid()
      ensures old(currentQuestion).None? ==> currentQuestion.None?
      ensures old(currentQuestion).Some? ==>
                var q := old(currentQuestion).value;
                currentQuestion == Some(q.(tags := ToggleSelection(q.tags, allTags, TagId, tagId, isSelected)))
      ensures old(currentQuestion).Some? && DistinctKeys(old(currentQuestion).value.tags, TagId) ==>
                DistinctKeys(currentQuestion.value.tags, TagId)
    {
      if currentQuestion.None? {
        return;
      }
      var q := currentQuestion.value;
      if DistinctKeys(q.tags, TagId) {
        ToggleKeepsDistinct(q.tags, allTags, TagId, tagId, isSelected);
      }
      currentQuestion := Some(q.(tags := ToggleSelection(q.tags, allTags, TagId, tagId, isSelected)));
    }

    /** `handleMaterialSelectionChange`. */
    method ChangeMaterialSelection(materialId: int, isSelected: bool)
      requires Valid()
      modifies this`currentQuestion
      ensures Valid()
      ensures old(currentQuestion).None? ==> currentQuestion.None?
      ensures old(currentQuestion).Some? ==>
                var q := old(currentQuestion).value;
                currentQuestion == Some(q.(materials := ToggleSelection(q.materials, allMaterials, MaterialId, materialId, isSelected)))
      ensures old(currentQuestion).Some? && DistinctKeys(old(currentQuestion).value.materials, MaterialId) ==>
                DistinctKeys(currentQuestion.value.materials, MaterialId)
    {
      if currentQuestion.None? {
        return;
      }
      var q := currentQuestion.value;
      if DistinctKeys(q.materials, MaterialId) {
        ToggleKeepsDistinct(q.materials, allMaterials, MaterialId, materialId, isSelected);
      }
      currentQuestion := Some(q.(materials := ToggleSelection(q.materials, allMaterials, MaterialId, materialId, isSelected)));
    }

    /**
     * `handleSave`. `response` is the backend's answer to the save request: the
     * saved question's ID, or the error message. On success the association
     * calls are returned in the order they are made and the modal closes.
     */
    method Save(backendUrl: string, authorized: bool, response: Result<int>)
      returns (request: Option<SaveRequest>, calls: seq<AssociationCall>)
      requires Valid()
      modifies this`modalError, this`isSaving, this`isModalOpen, this`currentQuestion, this`newChoice
      ensures Valid()
      ensures old(currentQuestion).None? || backendUrl == "" ==>
                request.None? && calls == [] && unchanged(this)
      ensures old(currentQuestion).Some? && backendUrl != "" && !authorized ==>
                request.None? && calls == [] && modalError == Some(ErrAuthRequired) &&
                currentQuestion == old(currentQuestion) && isSaving == old(isSaving) &&
                newChoice == old(newChoice)
      ensures old(currentQuestion).Some? && backendUrl != "" && authorized &&
              ValidateQuestion(old(currentQuestion).value).Some? ==>
                request.None? && calls == [] && modalError == ValidateQuestion(old(currentQuestion).value) &&
                currentQuestion == old(currentQuestion) && isSaving == old(isSaving) &&
                newChoice == old(newChoice)
      ensures old(currentQuestion).Some? && backendUrl != "" && authorized &&
              ValidateQuestion(old(currentQuestion).value).None? ==>
                var q := old(currentQuestion).value;
                request == Some(QuestionSaveRequest(backendUrl, q)) && !isSaving &&
                (response.Ok? ==>
                   calls == PlannedCalls(response.value, q, OriginalOf(questions, q)) &&
                   !isModalOpen && currentQuestion.None? && modalError.None? && newChoice == "") &&
                (response.Err? ==>
                   calls == [] && modalError == Some(response.message) &&
                   currentQuestion == old(currentQuestion) && newChoice == old(newChoice))
    {
      request, calls := None, [];
      if currentQuestion.None? || backendUrl == "" {
        return;
      }
      if !authorized {
        modalError := Some(ErrAuthRequired);
        return;
      }
      var q := currentQuestion.value;
      var invalid := ValidateQuestion(q);
      if invalid.Some? {
        modalError := invalid;
        return;
      }
      isSaving := true;
      modalError := None;
      request := Some(QuestionSaveRequest(backendUrl, q));
      match response {
        case Ok(questionId) =>
          calls := AssociationCalls(questionId, q, OriginalOf(questions, q));
          CloseModal();
        case Err(message) =>
          modalError := Some(message);
      }
      isSaving := false;
    }
  }
}
