/**
 * The pet's mood engine, `DeskPetAI` in python/pet_ai.py.
 *
 * The remote model call inside `chat_with_ai` is replaced by its result: the
 * response text is a parameter. A mood tag is the first match of the regular
 * expression `\(([+-]\d+)\)` found by `re.search`; its value is `int()` of the
 * captured group. Digits are the ASCII digits 0-9.
 */
module PetAI {
  import opened Wrappers

  const InitialMood := 81
  const MinMood := 0
  const MaxMood := 100

  predicate IsDigit(c: char) { '0' as int <= c as int <= '9' as int }
  predicate IsSign(c: char) { c == '+' || c == '-' }

  /**
   * The regular expression's language: `(`, a sign, one or more digits, `)`.
   * This is the reference the scanner below is proved against.
   */
  ghost predicate IsTag(w: string) {
    |w| >= 4 && w[0] == '(' && IsSign(w[1]) && w[|w| - 1] == ')' &&
    forall k | 2 <= k < |w| - 1 :: IsDigit(w[k])
  }

  /** A tag of `s` begins at index `i`. */
  ghost predicate TagStartsAt(s: string, i: nat) {
    exists j | i < j <= |s| :: IsTag(s[i..j])
  }

  function DigitValue(c: char): nat
    requires IsDigit(c)
  {
    c as int - '0' as int
  }

  /** The value of the decimal numeral `ds` (leading zeros allowed, as `int()` does). */
  function DigitsValue(ds: string): nat
    requires forall k | 0 <= k < |ds| :: IsDigit(ds[k])
  {
    if ds == [] then 0
    else DigitsValue(ds[..|ds| - 1]) * 10 + DigitValue(ds[|ds| - 1])
  }

  /** `int()` of a sign followed by digits. */
  function SignedValue(sign: char, ds: string): int
    requires forall k | 0 <= k < |ds| :: IsDigit(ds[k])
  {
    var magnitude: int := DigitsValue(ds);
    if sign == '-' then -magnitude else magnitude
  }

  /** The integer a tag denotes. */
  ghost function TagValue(w: string): int
    requires IsTag(w)
  {
    SignedValue(w[1], w[2..|w| - 1])
  }

  /** The end of the longest run of digits of `s` starting at `k`. */
  function DigitRunEnd(s: string, k: nat): (r: nat)
    requires k <= |s|
    ensures k <= r <= |s|
    ensures forall m | k <= m < r :: IsDigit(s[m])
    ensures r == |s| || !IsDigit(s[r])
    decreases |s| - k
  {
    if k < |s| && IsDigit(s[k]) then DigitRunEnd(s, k + 1) else k
  }

  /**
   * The value of the tag beginning at `i`, if one does. `\d+` is greedy and
   * `)` is not a digit, so the tag can only close right after the longest
   * digit run.
   */
  function TagAt(s: string, i: nat): (r: Option<int>)
    ensures r.Some? ==> i + 3 < |s| && s[i] == '(' && IsSign(s[i + 1]) && IsDigit(s[i + 2])
  {
    if i + 1 < |s| && s[i] == '(' && IsSign(s[i + 1]) then
      var e := DigitRunEnd(s, i + 2);
      if i + 2 < e < |s| && s[e] == ')' then Some(SignedValue(s[i + 1], s[i + 2..e])) else None
    else None
  }

  /** `TagAt` finds exactly the tags of the regular expression, with their values. */
  lemma TagAtMatchesRegex(s: string, i: nat)
    ensures TagAt(s, i).Some? <==> TagStartsAt(s, i)
    ensures forall j | i < j <= |s| && IsTag(s[i..j]) :: TagAt(s, i) == Some(TagValue(s[i..j]))
  {
    if TagAt(s, i).Some? {
      var e := DigitRunEnd(s, i + 2);
      assert IsTag(s[i..e + 1]);
    }
    forall j | i < j <= |s| && IsTag(s[i..j])
      ensures TagAt(s, i) == Some(TagValue(s[i..j]))
    {
      var w := s[i..j];
      assert s[i] == w[0] && s[i + 1] == w[1];
      var e := DigitRunEnd(s, i + 2);
      assert forall m | i + 2 <= m < j - 1 :: s[m] == w[m - i];
      assert s[j - 1] == w[|w| - 1];
      assert e == j - 1;
      assert s[i + 2..e] == w[2..|w| - 1];
    }
  }

  /** The leftmost index at or after `i` where a tag begins: what `re.search` finds. */
  function FirstTagFrom(s: string, i: nat): (r: Option<nat>)
    requires i <= |s|
    ensures r.Some? ==> i <= r.value < |s| && TagAt(s, r.value).Some?
    ensures r.Some? ==> forall m | i <= m < r.value :: TagAt(s, m).None?
    ensures r.None? ==> forall m | i <= m < |s| :: TagAt(s, m).None?
    decreases |s| - i
  {
    if i == |s| then None
    else if TagAt(s, i).Some? then Some(i)
    else FirstTagFrom(s, i + 1)
  }

  /** `int(group(1))` of the first match, or `None` when `re.search` fails. */
  function MoodChange(response: string): (r: Option<int>)
    ensures r.None? <==> forall m | 0 <= m < |response| :: TagAt(response, m).None?
    ensures r.Some? ==> exists i | 0 <= i < |response| ::
      TagAt(response, i) == r && forall m | 0 <= m < i :: TagAt(response, m).None?
  {
    match FirstTagFrom(response, 0)
    case None => None
    case Some(i) => TagAt(response, i)
  }

  /** `max(0, min(100, x))`. */
  function Clamp(x: int): (r: int)
    ensures MinMood <= r <= MaxMood
    ensures MinMood <= x <= MaxMood ==> r == x
    ensures x < MinMood ==> r == MinMood
    ensures x > MaxMood ==> r == MaxMood
  {
    if x < MinMood then MinMood else if x > MaxMood then MaxMood else x
  }

  /** The mood after `adjust_mood(response)` from mood `mood`. */
  function AdjustedMood(mood: int, response: string): (r: int)
    ensures MoodChange(response).None? ==> r == mood
    ensures MoodChange(response).Some? ==> MinMood <= r <= MaxMood
  {
    match MoodChange(response)
    case None => mood
    case Some(delta) => Clamp(mood + delta)
  }

  /** `response.split('(')[0]`: the text before the first `(`, or all of it. */
  function TextBeforeParen(response: string): (r: string)
    ensures r <= response
    ensures '(' !in r
    ensures '(' !in response ==> r == response
    ensures |r| < |response| ==> response[|r|] == '('
  {
    if response == [] || response[0] == '(' then []
    else [response[0]] + TextBeforeParen(response[1..])
  }

  /** Without any tag in the text the mood stays, whatever the mood is. */
  lemma NoTagKeepsMood(mood: int, response: string)
    requires forall i | 0 <= i <= |response| :: !TagStartsAt(response, i)
    ensures AdjustedMood(mood, response) == mood
  {
    match FirstTagFrom(response, 0)
    case None =>
    case Some(i) => TagAtMatchesRegex(response, i);
  }

  /** The leftmost tag decides the change; later tags play no part. */
  lemma FirstTagWins(mood: int, response: string, i: nat, j: nat)
    requires i < j <= |response| && IsTag(response[i..j])
    requires forall m | 0 <= m < i :: !TagStartsAt(response, m)
    ensures AdjustedMood(mood, response) == Clamp(mood + TagValue(response[i..j]))
  {
    TagAtMatchesRegex(response, i);
    var f := FirstTagFrom(response, 0);
    assert f.Some?;
    if f.value < i {
      TagAtMatchesRegex(response, f.value);
    }
  }

  /** Appending text after a tagged response never changes the change it carries. */
  lemma AppendingKeepsMoodChange(response: string, tail: string)
    requires MoodChange(response).Some?
    ensures MoodChange(response + tail) == MoodChange(response)
  {
    var s := response + tail;
    var k := FirstTagFrom(response, 0).value;
    TagAtMatchesRegex(response, k);
    var j :| k < j <= |response| && IsTag(response[k..j]);
    assert s[k..j] == response[k..j];
    TagAtMatchesRegex(s, k);
    NoEarlierTagAppended(response, tail, k);
    var f := FirstTagFrom(s, 0);
    assert f.Some? && f.value <= k;
  }

  /** No tag begins before `k` in the longer text when none does in the shorter one. */
  lemma NoEarlierTagAppended(response: string, tail: string, k: nat)
    requires k < |response| && response[k] == '('
    requires forall m | 0 <= m < k :: TagAt(response, m).None?
    ensures forall m | 0 <= m < k :: TagAt(response + tail, m).None?
  {
    var s := response + tail;
    forall m | 0 <= m < k ensures TagAt(s, m).None? {
      TagAtMatchesRegex(response, m);
      TagAtMatchesRegex(s, m);
      forall j' | m < j' <= |s| ensures !IsTag(s[m..j']) {
        if j' <= |response| {
          assert s[m..j'] == response[m..j'];
        } else {
          assert s[m..j'][k - m] == '(';
        }
      }
    }
  }

  /**
   * An answer in the format the prompt asks for: text without `(`, then the
   * tag. The mood moves by the tag's value and the reply is the text.
   */
  lemma TaggedAnswer(text: string, sign: char, digits: string)
    requires '(' !in text && IsSign(sign)
    requires digits != [] && forall k | 0 <= k < |digits| :: IsDigit(digits[k])
    ensures var answer := text + "(" + [sign] + digits + ")";
      MoodChange(answer) == Some(SignedValue(sign, digits)) &&
      TextBeforeParen(answer) == text
  {
    var answer := text + "(" + [sign] + digits + ")";
    var p := |text|;
    var e := DigitRunEnd(answer, p + 2);
    assert forall m | p + 2 <= m < p + 2 + |digits| :: answer[m] == digits[m - p - 2];
    assert answer[p + 2 + |digits|] == ')';
    assert e == p + 2 + |digits|;
    assert answer[p + 2..e] == digits;
    assert TagAt(answer, p) == Some(SignedValue(sign, digits));
    forall m | 0 <= m < p ensures TagAt(answer, m).None? {
      assert answer[m] == text[m];
    }
    var r := TextBeforeParen(answer);
    assert answer[p] == '(';
    assert answer[..p] == text;
    assert r == text;
  }

  /** "(7)" and "( +7)" carry no change: the sign is required. "(+7)" does. */
  lemma SignIsRequired()
    ensures AdjustedMood(81, "(7)") == 81
    ensures AdjustedMood(81, "( +7)") == 81
    ensures AdjustedMood(81, "(+7)") == 88
  {
    assert "(+7)" == "" + "(" + ['+'] + "7" + ")";
    TaggedAnswer("", '+', "7");
    assert DigitsValue("7") == 7;
  }

  /** A large rise saturates at the top of the scale. */
  lemma RiseSaturates()
    ensures AdjustedMood(81, "Yay! (+15)") == 96
    ensures AdjustedMood(90, "Yay! (+15)") == 100
  {
    assert "Yay! (+15)" == "Yay! " + "(" + ['+'] + "15" + ")";
    TaggedAnswer("Yay! ", '+', "15");
    assert DigitsValue("15") == 15;
  }

  /** A large fall saturates at the bottom of the scale, from any mood. */
  lemma FallSaturates(mood: int, text: string)
    requires MinMood <= mood <= MaxMood
    requires '(' !in text
    ensures AdjustedMood(mood, text + "(-200)") == 0
  {
    assert text + "(-200)" == text + "(" + ['-'] + "200" + ")";
    TaggedAnswer(text, '-', "200");
    assert "200"[..2] == "20" && "20"[..1] == "2";
    assert DigitsValue("200") == 200;
  }

  /** The chat back end of the pet window. */
  class DeskPetAI {
    var petMode: bool
    var moodScore: int

    /** The mood never leaves the scale. */
    ghost predicate Valid()
      reads this
    {
      MinMood <= moodScore <= MaxMood
    }

    constructor ()
      ensures Valid()
      ensures !petMode && moodScore == InitialMood
    {
      petMode := false;
      moodScore := InitialMood;
    }

    method TogglePetMode()
      modifies this
      ensures petMode == !old(petMode)
      ensures moodScore == old(moodScore)
    {
      petMode := !petMode;
    }

    /** Applies the first mood tag of `aiResponse`; the diagnostics it prints are left out. */
    method AdjustMood(aiResponse: string)
      requires Valid()
      modifies this
      ensures Valid()
      ensures moodScore == AdjustedMood(old(moodScore), aiResponse)
      ensures petMode == old(petMode)
    {
      var change := MoodChange(aiResponse);
      if change.Some? {
        moodScore := Clamp(moodScore + change.value);
      }
    }

    /**
     * `chat_with_ai` once the model has answered with `response`: the mood
     * follows the whole answer, the caller gets the text before its first `(`.
     */
    method ChatWithAI(response: string) returns (reply: string)
      requires Valid()
      modifies this
      ensures Valid()
      ensures moodScore == AdjustedMood(old(moodScore), response)
      ensures petMode == old(petMode)
      ensures reply == TextBeforeParen(response)
    {
      AdjustMood(response);
      reply := TextBeforeParen(response);
    }
  }

  /** A fresh pet answered with "(+7)" is at 88. */
  method FreshPetFirstChat() returns (mood: int, reply: string)
    ensures mood == 88 && reply == "Nice "
  {
    var ai := new DeskPetAI();
    assert "Nice (+7)" == "Nice " + "(" + ['+'] + "7" + ")";
    TaggedAnswer("Nice ", '+', "7");
    assert DigitsValue("7") == 7;
    reply := ai.ChatWithAI("Nice (+7)");
    mood := ai.moodScore;
  }

  /** Turning pet mode on and off again restores it. */
  method TogglePetModeTwice(ai: DeskPetAI)
    modifies ai
    ensures ai.petMode == old(ai.petMode)
    ensures ai.moodScore == old(ai.moodScore)
  {
    ai.TogglePetMode();
    ai.TogglePetMode();
  }
}
