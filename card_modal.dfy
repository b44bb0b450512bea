/**
 * The "Create a new Card" dialog: three form fields, a submit guard that
 * rejects blank questions and answers and an empty category, and the
 * resets that follow an accepted submission or the Reset button.
 */
module CardModal {
  import opened Wrappers
  import opened Projection

  /** The characters `String.prototype.trim` removes: ECMAScript WhiteSpace and LineTerminator. */
  predicate IsWhitespace(ch: char) {
    ch == '\t' || ch == '\n' || ch == '\U{000B}' || ch == '\U{000C}' || ch == '\r' || ch == ' ' ||
    ch == '\U{00A0}' || ch == '\U{1680}' || ('\U{2000}' <= ch <= '\U{200A}') ||
    ch == '\U{2028}' || ch == '\U{2029}' || ch == '\U{202F}' || ch == '\U{205F}' ||
    ch == '\U{3000}' || ch == '\U{FEFF}'
  }

  /** `s` with its leading whitespace removed. */
  function TrimStart(s: string): (r: string)
    ensures |r| <= |s| && r == s[|s| - |r|..]
    ensures forall i :: 0 <= i < |s| - |r| ==> IsWhitespace(s[i])
    ensures r != [] ==> !IsWhitespace(r[0])
  {
    if s != [] && IsWhitespace(s[0]) then TrimStart(s[1..]) else s
  }

  /** `s` with its trailing whitespace removed. */
  function TrimEnd(s: string): (r: string)
    ensures |r| <= |s| && r == s[..|r|]
    ensures forall i :: |r| <= i < |s| ==> IsWhitespace(s[i])
    ensures r != [] ==> !IsWhitespace(r[|r| - 1])
  {
    if s != [] && IsWhitespace(s[|s| - 1]) then TrimEnd(s[..|s| - 1]) else s
  }

  /** Every character of `s` outside `s[a..b]` is whitespace. */
  predicate WhitespaceOutside(s: string, a: nat, b: nat) {
    forall i :: 0 <= i < |s| && (i < a || b <= i) ==> IsWhitespace(s[i])
  }

  /** Removing a whitespace prefix and then a whitespace suffix keeps a slice of `s` with only whitespace around it. */
  lemma TrimIsSlice(s: string, t: string, r: string)
    requires |t| <= |s| && t == s[|s| - |t|..] && WhitespaceOutside(s, |s| - |t|, |s|)
    requires |r| <= |t| && r == t[..|r|] && WhitespaceOutside(t, 0, |r|)
    ensures exists a: nat, b: nat :: a <= b <= |s| && r == s[a..b] && WhitespaceOutside(s, a, b)
  {
    var a: nat := |s| - |t|;
    var b: nat := a + |r|;
    forall k | 0 <= k < |r|
      ensures r[k] == s[a + k]
    {
      assert r[k] == t[k];
    }
    assert r == s[a..b];
    forall i | b <= i < |s|
      ensures IsWhitespace(s[i])
    {
      assert s[i] == t[i - a];
    }
    assert WhitespaceOutside(s, a, b);
  }

  /** `s.trim()`: empty exactly when `s` is blank, otherwise starting and ending with a visible character. */
  function Trim(s: string): (r: string)
    ensures r == [] <==> forall i :: 0 <= i < |s| ==> IsWhitespace(s[i])
    ensures r != [] ==> !IsWhitespace(r[0]) && !IsWhitespace(r[|r| - 1])
    ensures |r| <= |s|
    ensures exists a: nat, b: nat :: a <= b <= |s| && r == s[a..b] && WhitespaceOutside(s, a, b)
  {
    var t := TrimStart(s);
    assert t != [] ==> s[|s| - |t|] == t[0];
    TrimIsSlice(s, t, TrimEnd(t));
    TrimEnd(t)
  }

  /** The guard of `onSubmit`: `!question.trim() || !answer.trim() || !cardCategory` rejects. */
  predicate Accepts(question: string, answer: string, category: string): (ok: bool)
    ensures ok ==> question != "" && answer != "" && category != ""
    ensures category == AllCategories ==> (ok <==> Trim(question) != "" && Trim(answer) != "")
  {
    Trim(question) != "" && Trim(answer) != "" && category != ""
  }

  /**
   * A submission is accepted exactly when the question and the answer each
   * hold a non-whitespace character and the category is not empty. The
   * form's initial category, the "All Categorys" sentinel, passes the guard.
   */
  lemma AcceptsExactly(question: string, answer: string, category: string)
    ensures Accepts(question, answer, category) <==>
      (exists i :: 0 <= i < |question| && !IsWhitespace(question[i])) &&
      (exists i :: 0 <= i < |answer| && !IsWhitespace(answer[i])) &&
      category != ""
    ensures Accepts(question, answer, AllCategories) <==> Trim(question) != "" && Trim(answer) != ""
  {
  }

  /** The object handed to `createCard`. */
  datatype CardDraft = CardDraft(category: string, question: string, answer: string)

  class CardForm {
    var cardCategory: string
    var question: string
    var answer: string

    constructor ()
      ensures cardCategory == AllCategories && question == "" && answer == ""
    {
      cardCategory := AllCategories;
      question := "";
      answer := "";
    }

    method SelectCategory(value: string)
      modifies this
      ensures cardCategory == value && question == old(question) && answer == old(answer)
    {
      cardCategory := value;
    }

    method EditQuestion(value: string)
      modifies this
      ensures question == value && cardCategory == old(cardCategory) && answer == old(answer)
    {
      question := value;
    }

    method EditAnswer(value: string)
      modifies this
      ensures answer == value && cardCategory == old(cardCategory) && question == old(question)
    {
      answer := value;
    }

    /**
     * Submits the form. A rejected submission changes nothing and creates
     * nothing; an accepted one hands the untrimmed fields to `createCard`
     * and clears the form.
     */
    method Submit() returns (created: Option<CardDraft>)
      modifies this
      ensures created.Some? <==> Accepts(old(question), old(answer), old(cardCategory))
      ensures created.None? ==>
        question == old(question) && answer == old(answer) && cardCategory == old(cardCategory)
      ensures created.Some? ==>
        created.value == CardDraft(old(cardCategory), old(question), old(answer)) &&
        question == "" && answer == "" && cardCategory == AllCategories
    {
      if !Accepts(question, answer, cardCategory) {
        return None;
      }
      created := Some(CardDraft(cardCategory, question, answer));
      question := "";
      answer := "";
      cardCategory := AllCategories;
    }

    /** The Reset button. */
    method Reset()
      modifies this
      ensures question == "" && answer == "" && cardCategory == AllCategories
    {
      question := "";
      answer := "";
      cardCategory := AllCategories;
    }
  }
}
