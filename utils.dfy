/** app/static/js/utils.js: escapeHTML, and the helpers that update one page
    element each (the loading overlay, the code block, the run-tests button). */
module Utils {
  import opened Optional

  // ---------------------------------------------------------------------------
  // escapeHTML
  // ---------------------------------------------------------------------------

  /** The characters escapeHTML's regular expression /[&<>"']/g matches. */
  predicate IsSpecial(c: char) {
    c == '&' || c == '<' || c == '>' || c == '"' || c == '\''
  }

  /** The characters that can open a tag or end an attribute value. */
  predicate IsMarkup(c: char) {
    c == '<' || c == '>' || c == '"' || c == '\''
  }

  /** The entity escapeHTML's lookup table gives a matched character; any
      other character is copied. */
  function EscapeChar(c: char): (r: string)
    ensures forall i :: 0 <= i < |r| ==> !IsMarkup(r[i])
    ensures !IsSpecial(c) <==> r == [c]
  {
    match c
    case '&' => "&amp;"
    case '<' => "&lt;"
    case '>' => "&gt;"
    case '"' => "&quot;"
    case '\'' => "&#39;"
    case _ => [c]
  }

  /** escapeHTML(str) */
  function Escape(s: string): (r: string)
    ensures |r| >= |s|
    ensures forall i :: 0 <= i < |r| ==> !IsMarkup(r[i])
    ensures (forall i :: 0 <= i < |s| ==> !IsSpecial(s[i])) ==> r == s
  {
    if s == [] then ""
    else
      var head, tail := EscapeChar(s[0]), Escape(s[1..]);
      assert forall i :: 0 <= i < |head + tail| ==> (head + tail)[i] == if i < |head| then head[i] else tail[i - |head|];
      head + tail
  }

  /** Escaping a concatenation escapes each part. */
  lemma {:induction false} EscapeAppend(a: string, b: string)
    ensures Escape(a + b) == Escape(a) + Escape(b)
  {
    if a == [] {
      assert a + b == b;
    } else {
      assert (a + b)[1..] == a[1..] + b;
      EscapeAppend(a[1..], b);
    }
  }

  /** Reads the five entities back into the characters they stand for. */
  function Unescape(s: string): string
    decreases |s|
  {
    if s == [] then ""
    else if "&amp;" <= s then "&" + Unescape(s[5..])
    else if "&lt;" <= s then "<" + Unescape(s[4..])
    else if "&gt;" <= s then ">" + Unescape(s[4..])
    else if "&quot;" <= s then "\"" + Unescape(s[6..])
    else if "&#39;" <= s then "'" + Unescape(s[5..])
    else [s[0]] + Unescape(s[1..])
  }

  lemma UnescapeEscapeChar(c: char, rest: string)
    ensures Unescape(EscapeChar(c) + rest) == [c] + Unescape(rest)
  {
    var s := EscapeChar(c) + rest;
    match c
    case '&' => assert s[5..] == rest;
    case '<' => assert s[4..] == rest; assert s[1] == 'l';
    case '>' => assert s[4..] == rest; assert s[1] == 'g';
    case '"' => assert s[6..] == rest; assert s[1] == 'q';
    case '\'' => assert s[5..] == rest; assert s[1] == '#';
    case _ => assert s[0] == c && s[1..] == rest;
  }

  /** Decoding the entities recovers the original string. */
  lemma {:induction false} UnescapeEscape(s: string)
    ensures Unescape(Escape(s)) == s
  {
    if s != [] {
      UnescapeEscapeChar(s[0], Escape(s[1..]));
      UnescapeEscape(s[1..]);
    }
  }

  /** Two strings that escape alike are the same string. */
  lemma EscapeInjective(a: string, b: string)
    requires Escape(a) == Escape(b)
    ensures a == b
  {
    UnescapeEscape(a);
    UnescapeEscape(b);
  }

  // ---------------------------------------------------------------------------
  // Page elements
  // ---------------------------------------------------------------------------

  /** The parts of a DOM element these helpers read or write. */
  class Element {
    var disabled: bool
    var classList: set<string>
    var className: string
    var highlighted: Option<string>  // dataset.highlighted; None when the attribute is absent
    var display: string              // style.display

    constructor (disabled: bool, classList: set<string>, className: string, highlighted: Option<string>, display: string)
      ensures this.disabled == disabled && this.classList == classList && this.className == className
      ensures this.highlighted == highlighted && this.display == display
    {
      this.disabled := disabled;
      this.classList := classList;
      this.className := className;
      this.highlighted := highlighted;
      this.display := display;
    }

    /** Whether `if (el.dataset.highlighted)` holds: present and not empty. */
    predicate IsHighlighted()
      reads this
    {
      highlighted.Some? && highlighted.value != ""
    }
  }

  /** showLoading(visible), on the #fullPageLoading overlay. */
  method ShowLoading(overlay: Element, visible: bool)
    modifies overlay`display
    ensures overlay.display == if visible then "block" else "none"
  {
    overlay.display := if visible then "block" else "none";
  }

  // updateCodeClass

  /** String.prototype.toLowerCase on one character, for ASCII letters. */
  function LowerChar(c: char): (r: char)
    ensures !('A' <= r <= 'Z')
    ensures 'A' <= c <= 'Z' ==> r as int == c as int + 32
    ensures !('A' <= c <= 'Z') ==> r == c
  {
    if 'A' <= c <= 'Z' then (c as int + 32) as char else c
  }

  function ToLower(s: string): (r: string)
    ensures |r| == |s|
    ensures forall i :: 0 <= i < |s| ==> r[i] == LowerChar(s[i])
  {
    if s == [] then "" else [LowerChar(s[0])] + ToLower(s[1..])
  }

  /** Lower-casing twice is lower-casing once. */
  lemma ToLowerIdempotent(s: string)
    ensures ToLower(ToLower(s)) == ToLower(s)
  {
    assert forall i :: 0 <= i < |s| ==> LowerChar(LowerChar(s[i])) == LowerChar(s[i]);
  }

  /** The class updateCodeClass gives the code block for `language`. */
  function CodeClassName(language: string): (r: string)
    ensures "hljs " <= r
    ensures forall i :: 0 <= i < |r| ==> !('A' <= r[i] <= 'Z')
  {
    var l := ToLower(language);
    var r := "hljs " + l + " language-" + l;
    assert forall i :: 0 <= i < |r| ==> r[i] in "hljs language-" || r[i] in l;
    r
  }

  /** Languages that differ only in letter case get the same class. */
  lemma CodeClassNameIgnoresCase(a: string, b: string)
    requires ToLower(a) == ToLower(b)
    ensures CodeClassName(a) == CodeClassName(b)
  {
  }

  lemma LowerPython(s: string)
    requires s == "Python" || s == "python"
    ensures ToLower(s) == "python"
  {
    var l := ToLower(s);
    assert LowerChar('P') == 'p';
    assert l[0] == 'p' && l[1] == 'y' && l[2] == 't' && l[3] == 'h' && l[4] == 'o' && l[5] == 'n';
  }

  lemma CodeClassNameOfPython()
    ensures CodeClassName("Python") == CodeClassName("python")
  {
    LowerPython("Python");
    LowerPython("python");
  }

  /** updateCodeClass(codeElement, language); the call to hljs.highlightElement
      that follows is not part of this model. */
  method UpdateCodeClass(codeElement: Element, language: string)
    modifies codeElement`highlighted, codeElement`className
    ensures !codeElement.IsHighlighted()
    ensures old(codeElement.IsHighlighted()) ==> codeElement.highlighted == None
    ensures !old(codeElement.IsHighlighted()) ==> codeElement.highlighted == old(codeElement.highlighted)
    ensures codeElement.className == CodeClassName(language)
  {
    if codeElement.IsHighlighted() {
      codeElement.highlighted := None;
    }
    codeElement.className := "hljs " + ToLower(language) + " language-" + ToLower(language);
  }

  // validateRunTestVisibility

  const Enabled := "bg-teal-500"
  const Disabled := "bg-gray-500"

  /** The run-tests button is enabled only for "python", and only when visible. */
  predicate RunTestsEnabled(language: string, visible: bool) {
    language == "python" && visible
  }

  /** The button's classes after validateRunTestVisibility: exactly one of the
      two colour classes, every other class as it was. */
  function ButtonClasses(classes: set<string>, enabled: bool): (r: set<string>)
    ensures Enabled in r <==> enabled
    ensures Disabled in r <==> !enabled
    ensures forall c :: c != Enabled && c != Disabled ==> (c in r <==> c in classes)
  {
    if enabled then classes - {Disabled} + {Enabled} else classes - {Enabled} + {Disabled}
  }

  /** Applying the same verdict twice changes nothing more. */
  lemma ButtonClassesIdempotent(classes: set<string>, enabled: bool)
    ensures ButtonClasses(ButtonClasses(classes, enabled), enabled) == ButtonClasses(classes, enabled)
  {
  }

  /** validateRunTestVisibility(language, visible = true), on #run-tests-button. */
  method ValidateRunTestVisibility(button: Element, language: string, visible: bool := true)
    modifies button`disabled, button`classList
    ensures button.disabled == !RunTestsEnabled(language, visible)
    ensures button.classList == ButtonClasses(old(button.classList), RunTestsEnabled(language, visible))
  {
    if language == "python" && visible {
      button.disabled := false;
      button.classList := button.classList - {Disabled};
      button.classList := button.classList + {Enabled};
    } else {
      button.disabled := true;
      button.classList := button.classList - {Enabled};
      button.classList := button.classList + {Disabled};
    }
  }
}
