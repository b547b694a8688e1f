/**
 * The static key table of the text keyboard (`TextKeyboard.Layout`) and the
 * text-key views the keyboard builds from it.
 *
 * Key widths and colour variants are left out. A key is shown either by a
 * text view (its appearance is `AltText` or `Text`) or by an image view; the
 * text views, in row-major order, are what `textKeys` walks.
 */
module KeyboardLayout {
  import opened Chars
  import opened Sequences

  datatype KeyDef =
    | AlphabetKey(character: string, displayText: string, punctuation: string)
    | CapsKey
    | BackspaceKey
    | LayoutSwitchKey(text: string, to: string)
    | CommaKey
    | LanguageKey
    | SpaceKey
    | SymbolKey(symbol: string)
    | ReturnKey

  /** How a key is drawn: a main text with an alternate text, a single text, or an image. */
  datatype Appearance =
    | AltText(keyCodeString: string, displayText: string, altText: string)
    | Text(displayText: string)
    | Image

  /**
   * The view that draws a key: an alphabet key shows its character with its
   * radical and its punctuation; the layout-switch, comma, space and symbol
   * keys show one text; caps, backspace, language and return are images.
   */
  function AppearanceOf(k: KeyDef): (r: Appearance)
    ensures r.AltText? <==> k.AlphabetKey?
    ensures k.AlphabetKey? ==>
      r.keyCodeString == k.character && r.displayText == k.displayText && r.altText == k.punctuation
    ensures r == Image <==> k.CapsKey? || k.BackspaceKey? || k.LanguageKey? || k.ReturnKey?
  {
    match k
    case AlphabetKey(c, d, p) => AltText(c, d, p)
    case LayoutSwitchKey(t, _) => Text(t)
    case CommaKey => Text(",")
    case SpaceKey => Text(" ")
    case SymbolKey(s) => Text(s)
    case _ => Image
  }

  /** The letter rows: the top row's alternate texts are the digits. */
  const TopRow: seq<KeyDef> :=
    [ AlphabetKey("Q", "手", "1"), AlphabetKey("W", "田", "2"), AlphabetKey("E", "水", "3"),
      AlphabetKey("R", "口", "4"), AlphabetKey("T", "廿", "5"), AlphabetKey("Y", "卜", "6"),
      AlphabetKey("U", "山", "7"), AlphabetKey("I", "戈", "8"), AlphabetKey("O", "人", "9"),
      AlphabetKey("P", "心", "0") ]
  const HomeRow: seq<KeyDef> :=
    [ AlphabetKey("A", "日", "@"), AlphabetKey("S", "尸", "*"), AlphabetKey("D", "木", "+"),
      AlphabetKey("F", "火", "-"), AlphabetKey("G", "土", "="), AlphabetKey("H", "的", "/"),
      AlphabetKey("J", "十", "#"), AlphabetKey("K", "大", "("), AlphabetKey("L", "中", ")") ]
  const ThirdRow: seq<KeyDef> :=
    [ CapsKey,
      AlphabetKey("Z", "重", "'"), AlphabetKey("X", "止", ":"), AlphabetKey("C", "金", "\""),
      AlphabetKey("V", "女", "?"), AlphabetKey("B", "月", "!"), AlphabetKey("N", "弓", "~"),
      AlphabetKey("M", "一", "\\"),
      BackspaceKey ]
  /** The control row. */
  const BottomRow: seq<KeyDef> :=
    [ LayoutSwitchKey("?123", ""), CommaKey, LanguageKey, SpaceKey, SymbolKey("."), ReturnKey ]

  /** The key table, row by row. */
  const Layout: seq<seq<KeyDef>> := [TopRow, HomeRow, ThirdRow, BottomRow]

  /** The keys of all rows, row after row. */
  function Flatten(rows: seq<seq<KeyDef>>): seq<KeyDef> {
    if rows == [] then [] else rows[0] + Flatten(rows[1..])
  }

  /** The appearances of the keys drawn by text views, in order. */
  function TextViews(keys: seq<KeyDef>): (r: seq<Appearance>)
    ensures |r| <= |keys|
    ensures forall i :: 0 <= i < |r| ==> r[i] != Image
  {
    if keys == [] then []
    else if AppearanceOf(keys[0]) == Image then TextViews(keys[1..])
    else [AppearanceOf(keys[0])] + TextViews(keys[1..])
  }

  function TextKeysOf(rows: seq<seq<KeyDef>>): seq<Appearance> {
    TextViews(Flatten(rows))
  }

  /** The characters of the alphabet keys, in order. */
  function AlphabetCharacters(keys: seq<KeyDef>): (r: seq<string>)
    ensures forall s :: s in r <==> HasAlphabetKey(keys, s)
  {
    if keys == [] then []
    else if keys[0].AlphabetKey? then [keys[0].character] + AlphabetCharacters(keys[1..])
    else AlphabetCharacters(keys[1..])
  }

  ghost predicate HasAlphabetKey(keys: seq<KeyDef>, s: string) {
    exists k :: k in keys && k.AlphabetKey? && k.character == s
  }

  /** The index of the first text view that is not an `AltText` one (the length when there is none). */
  function FirstNonAltText(views: seq<Appearance>): (r: nat)
    ensures r <= |views|
    ensures forall i :: 0 <= i < r ==> views[i].AltText?
    ensures r < |views| ==> !views[r].AltText?
  {
    if views == [] || !views[0].AltText? then 0 else 1 + FirstNonAltText(views[1..])
  }

  /** How many times `x` occurs in `s`. */
  function Occurrences(s: seq<string>, x: string): nat {
    if s == [] then 0 else (if s[0] == x then 1 else 0) + Occurrences(s[1..], x)
  }

  lemma {:induction false} OccursOnce(s: seq<string>, x: string)
    requires Distinct(s) && x in s
    ensures Occurrences(s, x) == 1
  {
    if s[0] == x {
      OccursNot(s[1..], x);
    } else {
      OccursOnce(s[1..], x);
    }
  }

  lemma {:induction false} OccursNot(s: seq<string>, x: string)
    requires x !in s
    ensures Occurrences(s, x) == 0
  {
    if s != [] {
      OccursNot(s[1..], x);
    }
  }

  lemma {:induction false} TextViewsAppend(a: seq<KeyDef>, b: seq<KeyDef>)
    ensures TextViews(a + b) == TextViews(a) + TextViews(b)
  {
    if a == [] {
      assert a + b == b;
    } else {
      assert (a + b)[0] == a[0] && (a + b)[1..] == a[1..] + b;
      TextViewsAppend(a[1..], b);
    }
  }

  /** The text views are exactly the appearances of the keys that are not drawn as images. */
  lemma {:induction false} TextViewsMembers(keys: seq<KeyDef>, v: Appearance)
    ensures v in TextViews(keys) <==> v != Image && exists k :: k in keys && AppearanceOf(k) == v
  {
    if keys != [] {
      TextViewsMembers(keys[1..], v);
      assert forall k :: k in keys <==> k == keys[0] || k in keys[1..];
    }
  }

  lemma {:induction false} AlphabetCharactersAppend(a: seq<KeyDef>, b: seq<KeyDef>)
    ensures AlphabetCharacters(a + b) == AlphabetCharacters(a) + AlphabetCharacters(b)
  {
    if a == [] {
      assert a + b == b;
    } else {
      assert (a + b)[0] == a[0] && (a + b)[1..] == a[1..] + b;
      AlphabetCharactersAppend(a[1..], b);
    }
  }

  /** A run of alphabet keys gives their characters, one per key. */
  lemma {:induction false} AlphabetCharactersOfLetterKeys(keys: seq<KeyDef>)
    requires forall i :: 0 <= i < |keys| ==> keys[i].AlphabetKey?
    ensures AlphabetCharacters(keys) == seq(|keys|, i requires 0 <= i < |keys| => keys[i].character)
  {
    if keys != [] {
      AlphabetCharactersOfLetterKeys(keys[1..]);
    }
  }

  /** The four rows hold 10, 9, 9 and 6 keys. */
  lemma LayoutShape()
    ensures |Layout| == 4
    ensures |TopRow| == 10 && |HomeRow| == 9 && |ThirdRow| == 9 && |BottomRow| == 6
  {
  }

  /** The alternate texts of the top row are the digits 1 to 9, then 0. */
  lemma TopRowDigits()
    ensures forall i :: 0 <= i < |TopRow| ==> TopRow[i].AlphabetKey?
    ensures seq(10, i requires 0 <= i < 10 => TopRow[i].punctuation) == ["1", "2", "3", "4", "5", "6", "7", "8", "9", "0"]
  {
  }

  /** The characters of the layout's letter keys, in the order they are laid out. */
  function Letters(): seq<string> {
    AlphabetCharacters(Flatten(Layout))
  }

  /** Every Latin letter A to Z is the character of exactly one key, and every key character is such a letter. */
  lemma LettersExactlyOnce()
    ensures forall c :: 'A' <= c <= 'Z' ==> Occurrences(Letters(), [c]) == 1
    ensures forall s :: s in Letters() ==> |s| == 1 && IsUpper(s[0])
  {
    var letters := "QWERTYUIOP" + "ASDFGHJKL" + "ZXCVBNM";
    LettersInOrder(letters);
    QwertyCoversAlphabet(letters);
    EachLetterOnce(letters);
  }

  /** A string holding each letter A to Z once gives keys whose characters are each letter once. */
  lemma EachLetterOnce(letters: string)
    requires Distinct(letters)
    requires forall c :: 'A' <= c <= 'Z' <==> c in letters
    ensures forall c :: 'A' <= c <= 'Z' ==> Occurrences(Singletons(letters), [c]) == 1
    ensures forall s :: s in Singletons(letters) ==> |s| == 1 && IsUpper(s[0])
  {
    var keys := Singletons(letters);
    DistinctSingletons(letters);
    forall c | 'A' <= c <= 'Z' ensures Occurrences(keys, [c]) == 1 {
      assert c in letters;
      var i :| 0 <= i < |letters| && letters[i] == c;
      assert keys[i] == [c];
      OccursOnce(keys, [c]);
    }
    forall s | s in keys ensures |s| == 1 && IsUpper(s[0]) {
      var i :| 0 <= i < |keys| && keys[i] == s;
      assert letters[i] in letters;
    }
  }

  /** The one-character strings of `s`, in order. */
  function Singletons(s: string): (r: seq<string>)
    ensures |r| == |s| && forall i :: 0 <= i < |s| ==> r[i] == [s[i]]
  {
    seq(|s|, i requires 0 <= i < |s| => [s[i]])
  }

  lemma QwertyCoversAlphabet(letters: string)
    requires letters == "QWERTYUIOP" + "ASDFGHJKL" + "ZXCVBNM"
    ensures |letters| == 26 && Distinct(letters)
    ensures forall c :: 'A' <= c <= 'Z' <==> c in letters
  {
    QwertyDistinct(letters);
    QwertyHasEveryLetter(letters);
    QwertyOnlyLetters(letters);
  }

  lemma QwertyDistinct(letters: string)
    requires letters == "QWERTYUIOP" + "ASDFGHJKL" + "ZXCVBNM"
    ensures Distinct(letters)
  {
  }

  lemma QwertyHasEveryLetter(letters: string)
    requires letters == "QWERTYUIOP" + "ASDFGHJKL" + "ZXCVBNM"
    ensures forall c :: 'A' <= c <= 'Z' ==> c in letters
  {
  }

  lemma QwertyOnlyLetters(letters: string)
    requires letters == "QWERTYUIOP" + "ASDFGHJKL" + "ZXCVBNM"
    ensures forall c :: c in letters ==> 'A' <= c <= 'Z'
  {
  }

  lemma DistinctSingletons(s: string)
    requires Distinct(s)
    ensures Distinct(Singletons(s))
  {
    forall i, j | 0 <= i < j < |s| ensures Singletons(s)[i] != Singletons(s)[j] {
      assert Singletons(s)[i][0] == s[i];
    }
  }

  /** `row` is alphabet keys whose characters spell `letters`, one letter per key. */
  predicate Spells(row: seq<KeyDef>, letters: string) {
    |row| == |letters| && forall i :: 0 <= i < |row| ==> row[i].AlphabetKey? && row[i].character == [letters[i]]
  }

  lemma TopRowSpells()
    ensures Spells(TopRow, "QWERTYUIOP")
  {
  }

  lemma HomeRowSpells()
    ensures Spells(HomeRow, "ASDFGHJKL")
  {
  }

  /** The third row is the caps key, seven letter keys, and the backspace key. */
  lemma ThirdRowSpells()
    ensures |ThirdRow| == 9 && ThirdRow[0] == CapsKey && ThirdRow[8] == BackspaceKey
    ensures Spells(ThirdRow[1..8], "ZXCVBNM")
  {
  }

  lemma SpelledCharacters(row: seq<KeyDef>, letters: string)
    requires Spells(row, letters)
    ensures AlphabetCharacters(row) == Singletons(letters)
  {
    AlphabetCharactersOfLetterKeys(row);
  }

  /** Keys spelling upper-case letters are letter keys. */
  lemma SpelledLetterKeys(row: seq<KeyDef>, letters: string)
    requires Spells(row, letters) && forall i :: 0 <= i < |letters| ==> IsUpper(letters[i])
    ensures forall i :: 0 <= i < |row| ==> IsLetterKey(row[i])
  {
  }

  lemma SingletonsAppend(a: string, b: string)
    ensures Singletons(a + b) == Singletons(a) + Singletons(b)
  {
  }

  lemma LettersInOrder(letters: string)
    requires letters == "QWERTYUIOP" + "ASDFGHJKL" + "ZXCVBNM"
    ensures Letters() == Singletons(letters)
  {
    LettersByRow();
    TopRowSpells();
    SpelledCharacters(TopRow, "QWERTYUIOP");
    HomeRowSpells();
    SpelledCharacters(HomeRow, "ASDFGHJKL");
    ThirdRowCharacters();
    SingletonsAppend("QWERTYUIOP", "ASDFGHJKL");
    SingletonsAppend("QWERTYUIOP" + "ASDFGHJKL", "ZXCVBNM");
  }

  lemma LettersByRow()
    ensures Letters() == AlphabetCharacters(TopRow) + AlphabetCharacters(HomeRow) + AlphabetCharacters(ThirdRow)
  {
    FlattenLayout();
    AlphabetCharactersAppend(TopRow + HomeRow + ThirdRow, BottomRow);
    AlphabetCharactersAppend(TopRow + HomeRow, ThirdRow);
    AlphabetCharactersAppend(TopRow, HomeRow);
    BottomRowCharacters();
  }

  lemma FlattenLayout()
    ensures Flatten(Layout) == TopRow + HomeRow + ThirdRow + BottomRow
  {
    FlattenFour(TopRow, HomeRow, ThirdRow, BottomRow);
  }

  lemma FlattenFour(a: seq<KeyDef>, b: seq<KeyDef>, c: seq<KeyDef>, d: seq<KeyDef>)
    ensures Flatten([a, b, c, d]) == a + b + c + d
  {
    assert [a, b, c, d][1..] == [b, c, d];
    assert [b, c, d][1..] == [c, d];
    assert [c, d][1..] == [d];
    assert Flatten([d]) == d by {
      assert [d][1..] == [];
      assert d + [] == d;
    }
    assert Flatten([c, d]) == c + d;
    assert Flatten([b, c, d]) == b + (c + d);
    assert Flatten([a, b, c, d]) == a + (b + (c + d));
  }

  lemma ThirdRowCharacters()
    ensures AlphabetCharacters(ThirdRow) == Singletons("ZXCVBNM")
  {
    var row := ThirdRow;
    ThirdRowSpells();
    assert row == [row[0]] + row[1..8] + [row[8]];
    AlphabetCharactersAppend([row[0]] + row[1..8], [row[8]]);
    AlphabetCharactersAppend([row[0]], row[1..8]);
    SpelledCharacters(row[1..8], "ZXCVBNM");
  }

  lemma BottomRowCharacters()
    ensures AlphabetCharacters(BottomRow) == []
  {
  }

  /** Keys that are all drawn by text views give one view each, in order. */
  lemma {:induction false} TextViewsOfTextKeys(keys: seq<KeyDef>)
    requires forall i :: 0 <= i < |keys| ==> AppearanceOf(keys[i]) != Image
    ensures TextViews(keys) == seq(|keys|, i requires 0 <= i < |keys| => AppearanceOf(keys[i]))
  {
    if keys != [] {
      TextViewsOfTextKeys(keys[1..]);
    }
  }

  /** A letter key: an alphabet key whose character is one upper-case letter. */
  predicate IsLetterKey(k: KeyDef) {
    k.AlphabetKey? && |k.character| == 1 && IsUpper(k.character[0])
  }

  /** A letter key's view: an `AltText` view whose key code is one upper-case letter. */
  predicate IsLetterView(v: Appearance) {
    v.AltText? && |v.keyCodeString| == 1 && IsUpper(v.keyCodeString[0])
  }

  /** Letter keys only: each one gives a letter view. */
  lemma LetterKeysViews(keys: seq<KeyDef>)
    requires forall i :: 0 <= i < |keys| ==> IsLetterKey(keys[i])
    ensures |TextViews(keys)| == |keys|
    ensures forall i :: 0 <= i < |keys| ==> IsLetterView(TextViews(keys)[i])
  {
    TextViewsOfTextKeys(keys);
  }

  lemma LetterRowsViews()
    ensures |TextViews(TopRow)| == 10 && forall i :: 0 <= i < 10 ==> IsLetterView(TextViews(TopRow)[i])
    ensures |TextViews(HomeRow)| == 9 && forall i :: 0 <= i < 9 ==> IsLetterView(TextViews(HomeRow)[i])
  {
    TopRowSpells();
    SpelledLetterKeys(TopRow, "QWERTYUIOP");
    HomeRowSpells();
    SpelledLetterKeys(HomeRow, "ASDFGHJKL");
    LetterKeysViews(TopRow);
    LetterKeysViews(HomeRow);
  }


  lemma ThirdRowViews()
    ensures |TextViews(ThirdRow)| == 7 && forall i :: 0 <= i < 7 ==> IsLetterView(TextViews(ThirdRow)[i])
  {
    var row := ThirdRow;
    ThirdRowSpells();
    assert row == [row[0]] + row[1..8] + [row[8]];
    TextViewsAppend([row[0]] + row[1..8], [row[8]]);
    TextViewsAppend([row[0]], row[1..8]);
    SpelledLetterKeys(row[1..8], "ZXCVBNM");
    LetterKeysViews(row[1..8]);
  }

  lemma BottomRowViews()
    ensures TextViews(BottomRow) == [Text("?123"), Text(","), Text(" "), Text(".")]
  {
  }

  /**
   * The text views of the layout: the 26 letter keys first, then the four
   * plain-text keys of the bottom row ("?123", ",", the space bar, ".").
   */
  lemma LayoutTextKeys()
    ensures |TextKeysOf(Layout)| == 30
    ensures forall i :: 0 <= i < 26 ==> IsLetterView(TextKeysOf(Layout)[i])
    ensures TextKeysOf(Layout)[26..] == [Text("?123"), Text(","), Text(" "), Text(".")]
  {
    FlattenLayout();
    TextViewsAppend(TopRow + HomeRow + ThirdRow, BottomRow);
    TextViewsAppend(TopRow + HomeRow, ThirdRow);
    TextViewsAppend(TopRow, HomeRow);
    LetterRowsViews();
    ThirdRowViews();
    BottomRowViews();
  }
}
