/**
 * The text keyboard as an object: its caps state, punctuation mapping and
 * current input method name, and the texts its views show. Each handler
 * updates the state and then rewrites the labels that depend on it.
 *
 * Views are abstracted to their texts: `mainText[i]` and `altText[i]` are
 * what the i-th text view (in `textKeys` order) shows, the caps button is
 * its icon, and the language key is its visibility.
 */
module Keyboard {
  import opened Chars
  import opened KeyboardLayout
  import opened Transforms

  /** A key action that sends text to the input method; the keyboard rewrites that text in place. */
  class FcitxKeyAction {
    var act: string

    constructor (act: string)
      ensures this.act == act
    {
      this.act := act;
    }
  }

  datatype KeyAction =
    | FcitxAction(fcitx: FcitxKeyAction)
    | CapsAction(lock: bool)
    | OtherKeyAction(name: string)

  /** Where a key action comes from: a key of this keyboard, or a popup. */
  datatype Source = FromKeyboard | FromPopup

  class TextKeyboard {
    /** The appearances of the text views, in the order the keyboard walks them. */
    const textKeys: seq<Appearance>
    /** The position of the space bar among the text views. */
    const spaceIndex: nat
    /** What each text view shows as its main text. */
    const mainText: array<string>
    /** What each text view shows as its alternate text (used by `AltText` views only). */
    const altText: array<string>

    var capsState: CapsState
    var capsIcon: CapsIcon
    var punctuationMapping: map<string, string>
    var curImeName: string
    var langVisible: bool
    /** The current value of the "keep letters upper case" preference, read at each relabelling. */
    var keepLettersUppercase: bool

    ghost predicate Valid()
      reads this
    {
      && mainText != altText
      && mainText.Length == |textKeys| && altText.Length == |textKeys|
      && WellFormedViews(textKeys)
      && spaceIndex < |textKeys| && textKeys[spaceIndex] == Text(" ")
      && capsIcon == IconFor(capsState)
    }

    /** A keyboard over `Layout`, each view showing its own texts, caps off, no punctuation mapping. */
    constructor (showLangSwitchKey: bool, keepLettersUppercase: bool)
      ensures Valid() && fresh(mainText) && fresh(altText)
      ensures textKeys == TextKeysOf(Layout)
      ensures mainText[..] == seq(|textKeys|, i requires 0 <= i < |textKeys| => InitialMainText(textKeys[i]))
      ensures altText[..] == seq(|textKeys|, i requires 0 <= i < |textKeys| => InitialAltText(textKeys[i]))
      ensures capsState == None && punctuationMapping == map[] && curImeName == InitialImeName
      ensures langVisible == showLangSwitchKey && this.keepLettersUppercase == keepLettersUppercase
    {
      LayoutViewsWellFormed();
      var views := TextKeysOf(Layout);
      textKeys := views;
      spaceIndex := 28;
      mainText := new string[|views|](i requires 0 <= i < |views| => InitialMainText(views[i]));
      altText := new string[|views|](i requires 0 <= i < |views| => InitialAltText(views[i]));
      capsState := None;
      capsIcon := CapslockNone;
      punctuationMapping := map[];
      curImeName := InitialImeName;
      langVisible := showLangSwitchKey;
      this.keepLettersUppercase := keepLettersUppercase;
    }

    /** Shows or hides the language key; called when the "show language switch key" preference changes. */
    method UpdateLangSwitchKey(visible: bool)
      modifies this`langVisible
      ensures langVisible == visible
    {
      langVisible := visible;
    }

    method UpdateCapsButtonIcon()
      modifies this`capsIcon
      ensures capsIcon == IconFor(capsState)
    {
      capsIcon := IconFor(capsState);
    }

    /**
     * Relabels the letter keys. The walk stops for good at the first view
     * that is not an `AltText` one; a key whose code is not one letter is
     * skipped.
     */
    method UpdateAlphabetKeys()
      requires Valid()
      modifies mainText
      ensures mainText[..] == AlphabetLabels(textKeys, old(mainText[..]), capsState, curImeName, keepLettersUppercase)
    {
      ghost var before := mainText[..];
      var i := 0;
      while i < |textKeys|
        invariant i <= FirstNonAltText(textKeys)
        invariant forall j :: 0 <= j < |textKeys| ==>
          mainText[j] == (if j < i then AlphabetLabel(textKeys[j], before[j], capsState, curImeName, keepLettersUppercase) else before[j])
      {
        var v := textKeys[i];
        if !v.AltText? {
          return;
        }
        if capsState != None || curImeName != LabelNeedIme {
          var str := v.keyCodeString;
          if Utf16Length(str) != 1 || !IsLetter(str[0]) {
            i := i + 1;
            continue;
          }
          mainText[i] := if keepLettersUppercase then Uppercase(str) else TransformAlphabet(capsState, str);
        } else {
          mainText[i] := v.displayText;
        }
        i := i + 1;
      }
    }

    /**
     * Relabels the punctuation: every `AltText` view's alternate text, and the
     * main text of each plain-text view that does not start with a letter or
     * white space, through the current mapping.
     */
    method UpdatePunctuationKeys()
      requires Valid()
      modifies mainText, altText
      ensures mainText[..] == PunctuationMainLabels(textKeys, old(mainText[..]), punctuationMapping)
      ensures altText[..] == PunctuationAltLabels(textKeys, old(altText[..]), punctuationMapping)
    {
      ghost var mains, alts := mainText[..], altText[..];
      var i := 0;
      while i < |textKeys|
        invariant i <= |textKeys|
        invariant forall j :: 0 <= j < |textKeys| ==>
          mainText[j] == (if j < i then PunctuationMainLabel(textKeys[j], mains[j], punctuationMapping) else mains[j])
        invariant forall j :: 0 <= j < |textKeys| ==>
          altText[j] == (if j < i then PunctuationAltLabel(textKeys[j], alts[j], punctuationMapping) else alts[j])
      {
        var v := textKeys[i];
        if v.AltText? {
          altText[i] := TransformPunctuation(punctuationMapping, v.altText);
        } else {
          var str := v.displayText;
          if !(IsLetter(str[0]) || IsWhitespace(str[0])) {
            mainText[i] := TransformPunctuation(punctuationMapping, str);
          }
        }
        i := i + 1;
      }
    }

    /** A press of the caps key; `lock` is the long-press toggle. */
    method SwitchCapsState(lock: bool)
      requires Valid()
      modifies this`capsState, this`capsIcon, mainText
      ensures Valid()
      ensures capsState == SwitchCaps(old(capsState), lock)
      ensures mainText[..] == AlphabetLabels(textKeys, old(mainText[..]), capsState, curImeName, keepLettersUppercase)
    {
      capsState := SwitchCaps(capsState, lock);
      UpdateCapsButtonIcon();
      UpdateAlphabetKeys();
    }

    /**
     * Rewrites the text of a key press: a text longer than one UTF-16 unit is
     * left alone; otherwise it is case-transformed, and a one-shot shift is
     * released (which relabels the letter keys).
     */
    method TransformKeyAction(action: FcitxKeyAction)
      requires Valid()
      modifies this`capsState, this`capsIcon, mainText, action
      ensures Valid()
      ensures KeyStep(action.act, capsState) == Transforms.TransformKeyAction(old(capsState), old(action.act))
      ensures mainText[..] ==
        if old(capsState) == Once && Utf16Length(old(action.act)) <= 1
        then AlphabetLabels(textKeys, old(mainText[..]), capsState, curImeName, keepLettersUppercase)
        else old(mainText[..])
    {
      if Utf16Length(action.act) > 1 {
        return;
      }
      action.act := TransformAlphabet(capsState, action.act);
      if capsState == Once {
        SwitchCapsState(false);
      }
    }

    /**
     * A key action reaching the keyboard: text from its own keys is
     * rewritten, a caps action toggles the caps state, and the action is
     * then passed on.
     */
    method OnAction(action: KeyAction, source: Source)
      requires Valid()
      modifies this`capsState, this`capsIcon, mainText, if action.FcitxAction? then {action.fcitx} else {}
      ensures Valid()
      ensures action.FcitxAction? && source == FromKeyboard ==>
        KeyStep(action.fcitx.act, capsState) == Transforms.TransformKeyAction(old(capsState), old(action.fcitx.act)) &&
        mainText[..] ==
          if old(capsState) == Once && Utf16Length(old(action.fcitx.act)) <= 1
          then AlphabetLabels(textKeys, old(mainText[..]), capsState, curImeName, keepLettersUppercase)
          else old(mainText[..])
      ensures action.FcitxAction? && source != FromKeyboard ==>
        action.fcitx.act == old(action.fcitx.act) && capsState == old(capsState) && mainText[..] == old(mainText[..])
      ensures action.CapsAction? ==>
        capsState == SwitchCaps(old(capsState), action.lock) &&
        mainText[..] == AlphabetLabels(textKeys, old(mainText[..]), capsState, curImeName, keepLettersUppercase)
      ensures action.OtherKeyAction? ==> capsState == old(capsState) && mainText[..] == old(mainText[..])
    {
      match action
      case FcitxAction(fcitx) =>
        if source == FromKeyboard {
          TransformKeyAction(fcitx);
        }
      case CapsAction(lock) =>
        SwitchCapsState(lock);
      case OtherKeyAction(_) =>
    }

    /** The keyboard is shown: caps is reset and the letter keys relabelled. */
    method OnAttach()
      requires Valid()
      modifies this`capsState, this`capsIcon, mainText
      ensures Valid() && capsState == None
      ensures mainText[..] == AlphabetLabels(textKeys, old(mainText[..]), None, curImeName, keepLettersUppercase)
    {
      capsState := None;
      UpdateCapsButtonIcon();
      UpdateAlphabetKeys();
    }

    /** The input method's punctuation mapping changed: it replaces the old one, and the punctuation is relabelled. */
    method OnPunctuationUpdate(mapping: map<string, string>)
      requires Valid()
      modifies this`punctuationMapping, mainText, altText
      ensures Valid() && punctuationMapping == mapping
      ensures mainText[..] == PunctuationMainLabels(textKeys, old(mainText[..]), mapping)
      ensures altText[..] == PunctuationAltLabels(textKeys, old(altText[..]), mapping)
    {
      punctuationMapping := mapping;
      UpdatePunctuationKeys();
    }

    /** The active input method changed: the space bar shows its name, which becomes the current name. */
    method OnInputMethodUpdate(ime: InputMethodEntry)
      requires Valid()
      modifies this`curImeName, mainText
      ensures Valid() && curImeName == SpaceLabel(ime)
      ensures mainText[spaceIndex] == SpaceLabel(ime)
      ensures mainText[..] ==
        AlphabetLabels(textKeys, old(mainText[..])[spaceIndex := SpaceLabel(ime)], capsState, curImeName, keepLettersUppercase)
    {
      var spaceLabel := SpaceLabel(ime);
      mainText[spaceIndex] := spaceLabel;
      curImeName := spaceLabel;
      ghost var labelled := mainText[..];
      UpdateAlphabetKeys();
      AlphabetLabelsKeep(textKeys, labelled, capsState, curImeName, keepLettersUppercase, spaceIndex);
    }

    /** The popup action this keyboard passes on for `action`. */
    method OnPopupAction(action: PopupAction) returns (forwarded: PopupAction)
      ensures forwarded == PopupActionFor(capsState, punctuationMapping, curImeName, action)
    {
      forwarded := PopupActionFor(capsState, punctuationMapping, curImeName, action);
    }
  }

  /**
   * A client of the keyboard: once it is shown, one press of shift puts
   * every letter key in upper case. `Layout` meets the requires (lemma
   * `LayoutLetterViews`).
   */
  method ShiftShowsCapitals(k: TextKeyboard)
    requires k.Valid() && FirstNonAltText(k.textKeys) == 26
    requires forall i :: 0 <= i < 26 ==> IsLetterView(k.textKeys[i]) && IsLetter(k.textKeys[i].keyCodeString[0])
    modifies k`capsState, k`capsIcon, k.mainText
    ensures k.Valid() && k.capsState == Once
    ensures forall i :: 0 <= i < 26 ==> k.mainText[i] == Uppercase(k.textKeys[i].keyCodeString)
  {
    k.OnAttach();
    ghost var shown := k.mainText[..];
    k.SwitchCapsState(false);
    forall i | 0 <= i < 26 ensures k.mainText[i] == Uppercase(k.textKeys[i].keyCodeString) {
      AlphabetLabelsOfLetters(k.textKeys, shown, Once, k.curImeName, k.keepLettersUppercase, i);
    }
  }

  /**
   * With shift pressed once, the next lower-case letter typed is sent in
   * upper case, the shift is used up and the letter keys go back to lower case.
   */
  method ShiftOneLetter(k: TextKeyboard, press: FcitxKeyAction, c: char)
    requires k.Valid() && k.capsState == Once && IsLower(c) && press.act == [c]
    modifies k`capsState, k`capsIcon, k.mainText, press
    ensures k.Valid() && k.capsState == None && k.capsIcon == CapslockNone && press.act == [UpperChar(c)]
    ensures k.mainText[..] == AlphabetLabels(k.textKeys, old(k.mainText[..]), None, k.curImeName, k.keepLettersUppercase)
  {
    k.OnAction(FcitxAction(press), FromKeyboard);
  }
}
