/** A one-line text field: characters are appended, Backspace removes the last one. */
module Forms {
  import opened Wrappers
  import opened Keys

  /** The text after one key: a character is appended, Backspace drops the
      last character of a non-empty text, and every other key leaves it. */
  function Typed(text: string, key: Key): (r: string)
    ensures |r| <= |text| + 1
  {
    match key
    case Char(c) => text + [c]
    case Backspace => if |text| == 0 then text else text[..|text| - 1]
    case _ => text
  }

  /** A character lands at the end and the earlier text is kept. */
  lemma TypedAppends(text: string, c: char)
    ensures Typed(text, Char(c))[..|text|] == text
    ensures |Typed(text, Char(c))| == |text| + 1 && Typed(text, Char(c))[|text|] == c
  {
  }

  /** Backspace removes exactly the last character, and nothing from an empty text. */
  lemma BackspaceDropsLast(text: string)
    ensures text == [] ==> Typed(text, Backspace) == []
    ensures text != [] ==> Typed(text, Backspace) + [text[|text| - 1]] == text
  {
  }

  /** Keys other than characters and Backspace leave the text alone. */
  lemma OtherKeysKeepText(text: string, key: Key)
    requires !key.Char? && !key.Backspace?
    ensures Typed(text, key) == text
  {
  }

  /** The text after a sequence of keys. */
  function TypedAll(text: string, keys: seq<Key>): string
    decreases keys
  {
    if keys == [] then text else TypedAll(Typed(text, keys[0]), keys[1..])
  }

  /** Each character of `word`, as key presses. */
  function Keystrokes(word: string): (keys: seq<Key>)
    ensures |keys| == |word|
  {
    if word == [] then [] else [Char(word[0])] + Keystrokes(word[1..])
  }

  /** `n` presses of Backspace. */
  function Backspaces(n: nat): (keys: seq<Key>)
    ensures |keys| == n
  {
    if n == 0 then [] else [Backspace] + Backspaces(n - 1)
  }

  /** Typing a word appends it. */
  lemma {:induction false} TypingAppends(text: string, word: string)
    ensures TypedAll(text, Keystrokes(word)) == text + word
    decreases word
  {
    if word != [] {
      var keys := Keystrokes(word);
      assert keys[0] == Char(word[0]) && keys[1..] == Keystrokes(word[1..]);
      assert TypedAll(text, keys) == TypedAll(text + [word[0]], Keystrokes(word[1..]));
      TypingAppends(text + [word[0]], word[1..]);
      assert text + [word[0]] + word[1..] == text + word;
    }
  }

  /** Each Backspace takes one character off the end. */
  lemma {:induction false} ErasingDrops(text: string, n: nat)
    requires n <= |text|
    ensures TypedAll(text, Backspaces(n)) == text[..|text| - n]
  {
    if n > 0 {
      assert Backspaces(n)[1..] == Backspaces(n - 1);
      ErasingDrops(text[..|text| - 1], n - 1);
      assert text[..|text| - 1][..|text| - 1 - (n - 1)] == text[..|text| - n];
    }
  }

  /** Typing a word and pressing Backspace once per character gives the original text back. */
  lemma {:induction false} TypeThenEraseRestores(text: string, word: string)
    ensures TypedAll(text, Keystrokes(word) + Backspaces(|word|)) == text
  {
    TypedAllConcat(text, Keystrokes(word), Backspaces(|word|));
    TypingAppends(text, word);
    ErasingDrops(text + word, |word|);
    assert (text + word)[..|text + word| - |word|] == text;
  }

  /** Replaying two key sequences one after the other. */
  lemma {:induction false} TypedAllConcat(text: string, first: seq<Key>, second: seq<Key>)
    ensures TypedAll(text, first + second) == TypedAll(TypedAll(text, first), second)
    decreases first
  {
    if first != [] {
      assert (first + second)[1..] == first[1..] + second;
      TypedAllConcat(Typed(text, first[0]), first[1..], second);
    } else {
      assert first + second == second;
    }
  }

  /** A labelled text field. */
  class StringForm {
    var fieldLabel: string
    var expectedInputSize: nat
    var state: string

    /** A field showing `state`, or nothing when no initial text is given. */
    constructor (fieldLabel: string, expectedInputSize: nat, state: Option<string>)
      ensures this.fieldLabel == fieldLabel && this.expectedInputSize == expectedInputSize
      ensures this.state == match state case Some(s) => s case None => ""
    {
      this.state := match state case Some(s) => s case None => "";
      this.fieldLabel := fieldLabel;
      this.expectedInputSize := expectedInputSize;
    }

    method HandleKey(key: Key)
      modifies this
      ensures state == Typed(old(state), key)
      ensures fieldLabel == old(fieldLabel) && expectedInputSize == old(expectedInputSize)
    {
      match key {
        case Char(c) =>
          state := state + [c];
        case Backspace =>
          if |state| > 0 {
            state := state[..|state| - 1];
          }
        case _ =>
      }
    }

    /** The text typed so far; the field is left as it is. */
    method Consume() returns (text: string)
      ensures text == state
    {
      text := state;
    }
  }
}
