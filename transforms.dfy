/**
 * The pure part of the text keyboard: the caps state machine, the
 * character transforms, the rewriting of key and popup actions, and the
 * labels the keyboard's relabelling loops compute for its text views.
 * The class in module `Keyboard` holds the state these functions read.
 */
module Transforms {
  import opened Chars
  import opened KeyboardLayout

  datatype CapsState = None | Once | Lock

  /** The caps button's image; the keyboard keeps it in step with the caps state. */
  datatype CapsIcon = CapslockNone | CapslockOnce | CapslockLock

  /** The icon shows the state: each state has its own icon. */
  function IconFor(s: CapsState): (r: CapsIcon)
    ensures (r == CapslockNone <==> s == None) && (r == CapslockOnce <==> s == Once) && (r == CapslockLock <==> s == Lock)
  {
    match s
    case None => CapslockNone
    case Once => CapslockOnce
    case Lock => CapslockLock
  }

  /**
   * One press of the caps key. The lock toggle (a long press) enters Lock
   * from any other state and leaves it for None; the plain toggle arms a
   * one-shot shift from None and falls back to None from Once or Lock.
   */
  function SwitchCaps(s: CapsState, lock: bool): (r: CapsState)
    ensures lock ==> (r == Lock <==> s != Lock) && (r != Lock ==> r == None)
    ensures !lock ==> (r == Once <==> s == None) && (r != Once ==> r == None)
  {
    if lock then (if s == Lock then None else Lock)
    else (if s == None then Once else None)
  }

  /** Locking twice from None comes back to None; shifting twice from None does too. */
  lemma ToggleTwiceFromNone()
    ensures SwitchCaps(SwitchCaps(None, true), true) == None
    ensures SwitchCaps(SwitchCaps(None, false), false) == None
  {
  }

  /** Either toggle undoes a Lock, and a plain toggle never reaches Lock. */
  lemma ToggleLeavesLock(lock: bool, s: CapsState)
    ensures SwitchCaps(Lock, lock) == None
    ensures SwitchCaps(s, false) != Lock
  {
  }

  /** Letters are shown lower case without caps, upper case with a shift or a lock. */
  function TransformAlphabet(caps: CapsState, c: string): (r: string)
    ensures |r| == |c|
    ensures forall i :: 0 <= i < |r| ==> SameLetterIgnoringCase(r[i], c[i])
    ensures caps == None ==> forall i :: 0 <= i < |r| ==> !IsUpper(r[i])
    ensures caps != None ==> forall i :: 0 <= i < |r| ==> !IsLower(r[i])
  {
    if caps == None then Lowercase(c) else Uppercase(c)
  }

  /** Transforming twice under the same state is transforming once. */
  lemma TransformAlphabetIdempotent(caps: CapsState, c: string)
    ensures TransformAlphabet(caps, TransformAlphabet(caps, c)) == TransformAlphabet(caps, c)
  {
    CaseMappingAbsorbs(c);
  }

  /** The punctuation the input method maps `p` to, or `p` itself when it has no mapping. */
  function TransformPunctuation(mapping: map<string, string>, p: string): (r: string)
    ensures p in mapping ==> r == mapping[p]
    ensures p !in mapping ==> r == p
  {
    if p in mapping then mapping[p] else p
  }

  /**
   * The text a single key stands for under the current state: strings that
   * are not one UTF-16 unit long pass through, a letter is case-transformed,
   * any other character goes through the punctuation mapping.
   */
  function TransformInputString(caps: CapsState, mapping: map<string, string>, c: string): (r: string)
    ensures Utf16Length(c) != 1 ==> r == c
    ensures Utf16Length(c) == 1 && IsLetter(c[0]) ==>
      |r| == 1 && IsLetter(r[0]) && SameLetterIgnoringCase(r[0], c[0]) &&
      (caps == None ==> !IsUpper(r[0])) && (caps != None ==> !IsLower(r[0]))
    ensures Utf16Length(c) == 1 && !IsLetter(c[0]) ==> r == TransformPunctuation(mapping, c)
  {
    if Utf16Length(c) != 1 then c
    else if IsLetter(c[0]) then TransformAlphabet(caps, c)
    else TransformPunctuation(mapping, c)
  }

  /** A letter's result does not depend on the punctuation mapping. */
  lemma LettersIgnoreMapping(caps: CapsState, m1: map<string, string>, m2: map<string, string>, c: string)
    requires Utf16Length(c) == 1 && IsLetter(c[0])
    ensures TransformInputString(caps, m1, c) == TransformInputString(caps, m2, c)
  {
  }

  /** The text of a key action after the keyboard has seen it, with the caps state that follows. */
  datatype KeyStep = KeyStep(act: string, caps: CapsState)

  /**
   * A key press: an action text longer than one UTF-16 unit is left alone
   * and changes nothing; otherwise it is case-transformed, and a one-shot
   * shift is used up while a lock stays.
   */
  function TransformKeyAction(caps: CapsState, act: string): (r: KeyStep)
    ensures Utf16Length(act) > 1 ==> r == KeyStep(act, caps)
    ensures Utf16Length(act) <= 1 ==> r.act == TransformAlphabet(caps, act)
    ensures Utf16Length(act) <= 1 ==> r.caps != Once && (caps == Lock <==> r.caps == Lock)
  {
    if Utf16Length(act) > 1 then KeyStep(act, caps)
    else KeyStep(TransformAlphabet(caps, act), if caps == Once then SwitchCaps(caps, false) else caps)
  }

  /** A one-shot shift capitalises one key press and the next is lower case again. */
  lemma ShiftAppliesOnce(first: string, second: string)
    requires Utf16Length(first) <= 1 && Utf16Length(second) <= 1
    ensures TransformKeyAction(Once, first).act == Uppercase(first)
    ensures TransformKeyAction(TransformKeyAction(Once, first).caps, second).act == Lowercase(second)
  {
  }

  /** A lock capitalises every key press and stays. */
  lemma LockPersists(first: string, second: string)
    requires Utf16Length(first) <= 1 && Utf16Length(second) <= 1
    ensures TransformKeyAction(Lock, first) == KeyStep(Uppercase(first), Lock)
    ensures TransformKeyAction(TransformKeyAction(Lock, first).caps, second) == KeyStep(Uppercase(second), Lock)
  {
  }

  /**
   * A character outside the Basic Multilingual Plane is two UTF-16 units
   * long, so pressing it leaves the text and a one-shot shift alone.
   */
  lemma WideCharacterKeepsShift(caps: CapsState, c: char)
    requires !InBmp(c)
    ensures TransformKeyAction(caps, [c]) == KeyStep([c], caps)
  {
    assert Utf16Length([c]) == 2 + Utf16Length([c][1..]);
  }

  /** The space bar text, also used as the input method name, of the input method named this way. */
  datatype InputMethodEntry = InputMethodEntry(displayName: string, subModeLabel: string, subModeName: string)

  /** The input method whose alphabet keys show their radicals when caps is off. */
  const LabelNeedIme: string := "中州韵（魔）"

  const InitialImeName: string := "English"

  /** The display name, then " (x)" with x the sub-mode label, or failing that the sub-mode name. */
  function SpaceLabel(ime: InputMethodEntry): (r: string)
    ensures ime.displayName <= r
    ensures r == ime.displayName <==> ime.subModeLabel == "" && ime.subModeName == ""
  {
    var sub := if ime.subModeLabel != "" then ime.subModeLabel else ime.subModeName;
    ime.displayName + (if sub != "" then " (" + sub + ")" else "")
  }

  /** The label starts with the display name, and has nothing after it exactly when both sub-mode strings are empty. */
  lemma SpaceLabelShape(ime: InputMethodEntry)
    ensures ime.displayName <= SpaceLabel(ime)
    ensures SpaceLabel(ime) == ime.displayName <==> ime.subModeLabel == "" && ime.subModeName == ""
    ensures ime.subModeLabel != "" ==> SpaceLabel(ime)[|ime.displayName|..] == " (" + ime.subModeLabel + ")"
    ensures ime.subModeLabel == "" && ime.subModeName != "" ==>
      SpaceLabel(ime)[|ime.displayName|..] == " (" + ime.subModeName + ")"
  {
    var s := SpaceLabel(ime);
    if ime.subModeLabel != "" || ime.subModeName != "" {
      assert |s| > |ime.displayName|;
    }
  }

  /** The key label inside a keyboard popup. */
  datatype PopupKeyboard = PopupKeyboard(keyLabel: string)

  datatype PopupAction =
    | PreviewAction(viewId: int, content: string, labelContent: string)
    | PreviewUpdateAction(viewId: int, content: string, labelContent: string)
    | ShowKeyboardAction(viewId: int, keyboard: PopupKeyboard)
    | OtherPopupAction(name: string)

  /** True when the previews and letter keys show the key's own label rather than its letter. */
  predicate ShowsLabels(caps: CapsState, imeName: string) {
    caps == None && imeName == LabelNeedIme
  }

  /** What a key preview shows: the key's label, or its text under the current transforms. */
  function PreviewContent(caps: CapsState, mapping: map<string, string>, imeName: string,
                          content: string, labelContent: string): (r: string)
    ensures ShowsLabels(caps, imeName) ==> r == labelContent
    ensures !ShowsLabels(caps, imeName) ==> r == TransformInputString(caps, mapping, content)
  {
    if caps != None || imeName != LabelNeedIme then TransformInputString(caps, mapping, content)
    else labelContent
  }

  /**
   * The popup action passed on: previews get their content rewritten, a
   * popup keyboard whose label is one letter gets that letter
   * case-transformed, everything else is passed on unchanged.
   */
  function PopupActionFor(caps: CapsState, mapping: map<string, string>, imeName: string,
                          action: PopupAction): (r: PopupAction)
    ensures action.PreviewAction? ==> r == PreviewAction(action.viewId,
      PreviewContent(caps, mapping, imeName, action.content, action.labelContent), action.labelContent)
    ensures action.PreviewUpdateAction? ==> r == PreviewUpdateAction(action.viewId,
      PreviewContent(caps, mapping, imeName, action.content, action.labelContent), action.labelContent)
    ensures action.ShowKeyboardAction? ==> r.ShowKeyboardAction? && r.viewId == action.viewId
    ensures action.ShowKeyboardAction? && Utf16Length(action.keyboard.keyLabel) == 1 && IsLetter(action.keyboard.keyLabel[0]) ==>
      r.keyboard.keyLabel == TransformAlphabet(caps, action.keyboard.keyLabel)
    ensures action.ShowKeyboardAction? && !(Utf16Length(action.keyboard.keyLabel) == 1 && IsLetter(action.keyboard.keyLabel[0])) ==>
      r == action
    ensures action.OtherPopupAction? ==> r == action
  {
    match action
    case PreviewAction(viewId, content, labelContent) =>
      PreviewAction(viewId, PreviewContent(caps, mapping, imeName, content, labelContent), labelContent)
    case PreviewUpdateAction(viewId, content, labelContent) =>
      PreviewUpdateAction(viewId, PreviewContent(caps, mapping, imeName, content, labelContent), labelContent)
    case ShowKeyboardAction(viewId, keyboard) =>
      if Utf16Length(keyboard.keyLabel) == 1 && IsLetter(keyboard.keyLabel[0])
      then ShowKeyboardAction(viewId, PopupKeyboard(TransformAlphabet(caps, keyboard.keyLabel)))
      else action
    case OtherPopupAction(_) => action
  }

  /** With caps on, the preview of a letter key shows that letter in upper case, whatever the input method. */
  lemma CapsPreviewIsUpper(caps: CapsState, mapping: map<string, string>, imeName: string,
                           viewId: int, c: char, labelContent: string)
    requires caps != None && IsLower(c)
    ensures PopupActionFor(caps, mapping, imeName, PreviewAction(viewId, [c], labelContent)).content == [UpperChar(c)]
  {
  }

  // ---------------------------------------------------------------------
  // Labels of the text views.
  // ---------------------------------------------------------------------

  /** The main text a view shows when it is built: its display text (none for an image). */
  function InitialMainText(v: Appearance): string {
    match v
    case AltText(_, d, _) => d
    case Text(d) => d
    case Image => ""
  }

  /** The alternate text a view shows when it is built. */
  function InitialAltText(v: Appearance): string {
    if v.AltText? then v.altText else ""
  }

  /** Text views only, and every plain-text view has something to show. */
  predicate WellFormedViews(views: seq<Appearance>) {
    forall i :: 0 <= i < |views| ==> views[i] != Image && (views[i].Text? ==> views[i].displayText != "")
  }

  /** A key code the alphabet relabelling changes: one UTF-16 unit, and a letter. */
  predicate IsLetterCode(code: string) {
    Utf16Length(code) == 1 && IsLetter(code[0])
  }

  /**
   * The main text an `AltText` view gets from the alphabet relabelling: its
   * display text when labels are shown; otherwise its key code in upper
   * case when letters are kept upper case, or case-transformed, and left as
   * it was when the key code is not a single letter.
   */
  function AlphabetLabel(v: Appearance, current: string, caps: CapsState, imeName: string, keepUpper: bool): (r: string)
    requires v.AltText?
    ensures ShowsLabels(caps, imeName) ==> r == v.displayText
    ensures !ShowsLabels(caps, imeName) && !IsLetterCode(v.keyCodeString) ==> r == current
    ensures !ShowsLabels(caps, imeName) && IsLetterCode(v.keyCodeString) ==>
      |r| == 1 && SameLetterIgnoringCase(r[0], v.keyCodeString[0]) &&
      (keepUpper || caps != None ==> !IsLower(r[0])) && (!keepUpper && caps == None ==> !IsUpper(r[0]))
  {
    if !ShowsLabels(caps, imeName) then
      var code := v.keyCodeString;
      if !IsLetterCode(code) then current
      else if keepUpper then Uppercase(code)
      else TransformAlphabet(caps, code)
    else v.displayText
  }

  /**
   * The main texts after the alphabet relabelling: the views before the
   * first view that is not an `AltText` one are relabelled, and the walk
   * stops there, leaving that view and all later ones as they were.
   */
  function AlphabetLabels(views: seq<Appearance>, labels: seq<string>, caps: CapsState,
                          imeName: string, keepUpper: bool): (r: seq<string>)
    requires |labels| == |views|
    ensures |r| == |labels|
    ensures forall i :: 0 <= i < FirstNonAltText(views) ==>
      r[i] == AlphabetLabel(views[i], labels[i], caps, imeName, keepUpper)
    ensures forall i :: FirstNonAltText(views) <= i < |labels| ==> r[i] == labels[i]
  {
    var stop := FirstNonAltText(views);
    seq(|labels|, i requires 0 <= i < |labels| =>
      if i < stop then AlphabetLabel(views[i], labels[i], caps, imeName, keepUpper) else labels[i])
  }

  /** Relabelling twice under the same state is relabelling once. */
  lemma AlphabetLabelsIdempotent(views: seq<Appearance>, labels: seq<string>, caps: CapsState,
                                 imeName: string, keepUpper: bool)
    requires |labels| == |views|
    ensures AlphabetLabels(views, AlphabetLabels(views, labels, caps, imeName, keepUpper), caps, imeName, keepUpper)
         == AlphabetLabels(views, labels, caps, imeName, keepUpper)
  {
    var once := AlphabetLabels(views, labels, caps, imeName, keepUpper);
    var twice := AlphabetLabels(views, once, caps, imeName, keepUpper);
    forall i | 0 <= i < |labels| ensures twice[i] == once[i] {
      if i < FirstNonAltText(views) {
        TransformAlphabetIdempotent(caps, views[i].keyCodeString);
        CaseMappingAbsorbs(views[i].keyCodeString);
      }
    }
  }

  /**
   * What each relabelled letter key shows: with caps off under the label
   * input method, its display text; otherwise its letter, in upper case
   * when letters are kept upper case or caps is on and in lower case
   * otherwise.
   */
  lemma AlphabetLabelsOfLetters(views: seq<Appearance>, labels: seq<string>, caps: CapsState,
                                imeName: string, keepUpper: bool, i: nat)
    requires |labels| == |views| && i < FirstNonAltText(views)
    requires IsLetterCode(views[i].keyCodeString)
    ensures ShowsLabels(caps, imeName) ==>
      AlphabetLabels(views, labels, caps, imeName, keepUpper)[i] == views[i].displayText
    ensures !ShowsLabels(caps, imeName) && (keepUpper || caps != None) ==>
      AlphabetLabels(views, labels, caps, imeName, keepUpper)[i] == Uppercase(views[i].keyCodeString)
    ensures !ShowsLabels(caps, imeName) && !keepUpper && caps == None ==>
      AlphabetLabels(views, labels, caps, imeName, keepUpper)[i] == Lowercase(views[i].keyCodeString)
  {
  }

  /** A view whose key code is not one letter keeps its text unless labels are shown; views from the stop on always keep theirs. */
  lemma AlphabetLabelsKeep(views: seq<Appearance>, labels: seq<string>, caps: CapsState,
                           imeName: string, keepUpper: bool, i: nat)
    requires |labels| == |views| && i < |views|
    requires i >= FirstNonAltText(views) ||
             (!ShowsLabels(caps, imeName) && !IsLetterCode(views[i].keyCodeString))
    ensures AlphabetLabels(views, labels, caps, imeName, keepUpper)[i] == labels[i]
  {
  }

  /**
   * On this keyboard's views the early stop loses nothing: every `AltText`
   * view comes before the first plain-text view, so every letter key is
   * relabelled.
   */
  lemma LayoutRelabelsEveryLetter()
    ensures FirstNonAltText(TextKeysOf(Layout)) == 26
    ensures forall i :: 0 <= i < |TextKeysOf(Layout)| ==> (TextKeysOf(Layout)[i].AltText? <==> i < 26)
  {
    LayoutTextKeys();
    LettersThenText(TextKeysOf(Layout));
  }

  /** Views made of 26 letter views and then plain texts: the walk stops exactly after the letters. */
  lemma LettersThenText(views: seq<Appearance>)
    requires |views| == 30 && forall i :: 0 <= i < 26 ==> IsLetterView(views[i])
    requires views[26..] == [Text("?123"), Text(","), Text(" "), Text(".")]
    ensures FirstNonAltText(views) == 26
    ensures forall i :: 0 <= i < |views| ==> (views[i].AltText? <==> i < 26)
  {
    assert !views[26].AltText? by {
      assert views[26] == views[26..][0];
    }
    FirstNonAltTextOf(views, 26);
    forall i | 26 <= i < |views| ensures !views[i].AltText? {
      assert views[i] == views[26..][i - 26];
    }
  }

  /** The first 26 text views of `Layout` are its letters, and the relabelling walk reaches all of them. */
  lemma LayoutLetterViews(views: seq<Appearance>)
    requires views == TextKeysOf(Layout)
    ensures |views| == 30 && FirstNonAltText(views) == 26
    ensures forall i :: 0 <= i < 26 ==> IsLetterView(views[i]) && IsLetter(views[i].keyCodeString[0])
  {
    LayoutTextKeys();
    LayoutRelabelsEveryLetter();
  }

  /** The stop index is determined by its contract. */
  lemma FirstNonAltTextOf(views: seq<Appearance>, k: nat)
    requires k <= |views| && (forall i :: 0 <= i < k ==> views[i].AltText?) && (k < |views| ==> !views[k].AltText?)
    ensures FirstNonAltText(views) == k
  {
  }

  /** The layout's views satisfy what the keyboard assumes of them; the space bar is the 29th. */
  lemma LayoutViewsWellFormed()
    ensures WellFormedViews(TextKeysOf(Layout))
    ensures |TextKeysOf(Layout)| == 30 && TextKeysOf(Layout)[28] == Text(" ")
  {
    var views := TextKeysOf(Layout);
    LayoutTextKeys();
    forall i | 26 <= i < 30 ensures views[i] == views[26..][i - 26] {}
  }

  /** A plain-text view whose text starts with neither a letter nor white space. */
  predicate IsPunctuationView(v: Appearance) {
    v.Text? && v.displayText != "" && !(IsLetter(v.displayText[0]) || IsWhitespace(v.displayText[0]))
  }

  /**
   * The main text a view gets from the punctuation relabelling: a plain-text
   * view whose text starts with neither a letter nor white space shows its
   * text through the mapping; other views keep their main text.
   */
  function PunctuationMainLabel(v: Appearance, current: string, mapping: map<string, string>): string
    requires v.Text? ==> v.displayText != ""
  {
    if v.Text? && !(IsLetter(v.displayText[0]) || IsWhitespace(v.displayText[0]))
    then TransformPunctuation(mapping, v.displayText)
    else current
  }

  /** The alternate text an `AltText` view gets: its alternate text through the mapping. */
  function PunctuationAltLabel(v: Appearance, current: string, mapping: map<string, string>): string {
    if v.AltText? then TransformPunctuation(mapping, v.altText) else current
  }

  /**
   * The main texts after the punctuation relabelling: a plain-text view whose
   * text starts with neither a letter nor white space shows that text through
   * the mapping; every other view keeps its main text.
   */
  function PunctuationMainLabels(views: seq<Appearance>, labels: seq<string>, mapping: map<string, string>): (r: seq<string>)
    requires |labels| == |views| && WellFormedViews(views)
    ensures |r| == |labels|
    ensures forall i :: 0 <= i < |r| && IsPunctuationView(views[i]) ==>
      r[i] == TransformPunctuation(mapping, views[i].displayText)
    ensures forall i :: 0 <= i < |r| && !IsPunctuationView(views[i]) ==> r[i] == labels[i]
  {
    seq(|labels|, i requires 0 <= i < |labels| => PunctuationMainLabel(views[i], labels[i], mapping))
  }

  /**
   * The alternate texts after the punctuation relabelling: an `AltText`
   * view shows its alternate text through the mapping; every other view
   * keeps its alternate text.
   */
  function PunctuationAltLabels(views: seq<Appearance>, labels: seq<string>, mapping: map<string, string>): (r: seq<string>)
    requires |labels| == |views|
    ensures |r| == |labels|
    ensures forall i :: 0 <= i < |r| && views[i].AltText? ==> r[i] == TransformPunctuation(mapping, views[i].altText)
    ensures forall i :: 0 <= i < |r| && !views[i].AltText? ==> r[i] == labels[i]
  {
    seq(|labels|, i requires 0 <= i < |labels| => PunctuationAltLabel(views[i], labels[i], mapping))
  }

  /** A new mapping replaces the old one wholesale: relabelling under m1 and then m2 is relabelling under m2. */
  lemma PunctuationLatestMappingWins(views: seq<Appearance>, mains: seq<string>, alts: seq<string>,
                                     m1: map<string, string>, m2: map<string, string>)
    requires |mains| == |views| == |alts| && WellFormedViews(views)
    ensures PunctuationMainLabels(views, PunctuationMainLabels(views, mains, m1), m2) == PunctuationMainLabels(views, mains, m2)
    ensures PunctuationAltLabels(views, PunctuationAltLabels(views, alts, m1), m2) == PunctuationAltLabels(views, alts, m2)
  {
  }

  /** With no mapping, relabelling gives back each view's own punctuation. */
  lemma PunctuationWithoutMapping(views: seq<Appearance>, mains: seq<string>, alts: seq<string>, i: nat)
    requires |mains| == |views| == |alts| && WellFormedViews(views) && i < |views|
    ensures views[i].AltText? ==> PunctuationAltLabels(views, alts, map[])[i] == views[i].altText
    ensures views[i].Text? ==>
      PunctuationMainLabels(views, mains, map[])[i] == (if IsLetter(views[i].displayText[0]) || IsWhitespace(views[i].displayText[0]) then mains[i] else views[i].displayText)
  {
  }
}
