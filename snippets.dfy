/** The snippet store of app/static/js/app.js: saved snippets live in
    localStorage under "snippets"; saveSnippet appends, deleteSnippet drops every
    snippet with an id, loadSnippet shows the first snippet with an id in the
    editor, and loadSnippets redraws the list of saved snippets. */
module Snippets {
  import opened Optional
  import Utils

  /** One saved snippet; `id` is the Date.now() of its creation, not necessarily unique. */
  datatype Snippet = Snippet(id: int, description: string, language: string, code: string)

  // ---------------------------------------------------------------------------
  // The store as a list
  // ---------------------------------------------------------------------------

  /** snippets.filter(snippet => snippet.id !== id) */
  function WithoutId(snippets: seq<Snippet>, id: int): (r: seq<Snippet>)
    ensures |r| <= |snippets|
    ensures forall k :: 0 <= k < |r| ==> r[k].id != id && r[k] in snippets
    ensures forall x :: x in snippets && x.id != id ==> x in r
    ensures (forall k :: 0 <= k < |snippets| ==> snippets[k].id != id) ==> r == snippets
  {
    if snippets == [] then []
    else if snippets[0].id == id then WithoutId(snippets[1..], id)
    else [snippets[0]] + WithoutId(snippets[1..], id)
  }

  /** The filter keeps order: it works on each part of a list separately. */
  lemma {:induction false} WithoutIdAppend(a: seq<Snippet>, b: seq<Snippet>, id: int)
    ensures WithoutId(a + b, id) == WithoutId(a, id) + WithoutId(b, id)
  {
    if a == [] {
      assert a + b == b;
    } else {
      assert (a + b)[1..] == a[1..] + b;
      WithoutIdAppend(a[1..], b, id);
    }
  }

  /** Deleting an id twice is deleting it once. */
  lemma WithoutIdIdempotent(snippets: seq<Snippet>, id: int)
    ensures WithoutId(WithoutId(snippets, id), id) == WithoutId(snippets, id)
  {
  }

  /** Deleting two ids gives the same list in either order. */
  lemma {:induction false} WithoutIdCommutes(snippets: seq<Snippet>, a: int, b: int)
    ensures WithoutId(WithoutId(snippets, a), b) == WithoutId(WithoutId(snippets, b), a)
  {
    if snippets != [] {
      WithoutIdCommutes(snippets[1..], a, b);
    }
  }

  /** The position of snippets.find(s => s.id === id); |snippets| when there is none. */
  function FirstIndex(snippets: seq<Snippet>, id: int): (k: nat)
    ensures k <= |snippets|
    ensures forall j :: 0 <= j < k ==> snippets[j].id != id
    ensures k < |snippets| ==> snippets[k].id == id
  {
    if snippets == [] then 0
    else if snippets[0].id == id then 0
    else 1 + FirstIndex(snippets[1..], id)
  }

  /** snippets.find(s => s.id === id) */
  function Find(snippets: seq<Snippet>, id: int): (r: Option<Snippet>)
    ensures r.None? <==> forall k :: 0 <= k < |snippets| ==> snippets[k].id != id
    ensures r.Some? ==> r.value.id == id && r.value in snippets
    ensures r.Some? ==> r.value == snippets[FirstIndex(snippets, id)]
  {
    var k := FirstIndex(snippets, id);
    if k < |snippets| then Some(snippets[k]) else None
  }

  /** After a save, find still returns an earlier snippet with the same id;
      the new one is found only when its id was not used before. */
  lemma {:induction false} FindAfterAppend(snippets: seq<Snippet>, s: Snippet, id: int)
    ensures Find(snippets + [s], id) ==
      if Find(snippets, id).Some? then Find(snippets, id)
      else if s.id == id then Some(s) else None
  {
    var all := snippets + [s];
    var k := FirstIndex(snippets, id);
    FirstIndexAppend(snippets, s, id);
    if k < |snippets| {
      assert all[k] == snippets[k];
    } else {
      assert all[|snippets|] == s;
    }
  }

  lemma {:induction false} FirstIndexAppend(snippets: seq<Snippet>, s: Snippet, id: int)
    ensures FirstIndex(snippets + [s], id) ==
      if FirstIndex(snippets, id) < |snippets| then FirstIndex(snippets, id)
      else if s.id == id then |snippets| else |snippets| + 1
  {
    if snippets != [] {
      assert (snippets + [s])[1..] == snippets[1..] + [s];
      FirstIndexAppend(snippets[1..], s, id);
    }
  }

  /** find looks at the head first, then at the rest. */
  lemma FindCons(snippets: seq<Snippet>, id: int)
    requires snippets != []
    ensures Find(snippets, id) == if snippets[0].id == id then Some(snippets[0]) else Find(snippets[1..], id)
  {
  }

  /** Once an id is deleted nothing has it; other ids are found as before. */
  lemma {:induction false} FindAfterDelete(snippets: seq<Snippet>, id: int, other: int)
    ensures Find(WithoutId(snippets, id), id) == None
    ensures other != id ==> Find(WithoutId(snippets, id), other) == Find(snippets, other)
  {
    if snippets != [] && other != id {
      FindAfterDelete(snippets[1..], id, other);
      FindCons(snippets, other);
      var rest := WithoutId(snippets[1..], id);
      if snippets[0].id != id {
        assert WithoutId(snippets, id) == [snippets[0]] + rest;
        assert ([snippets[0]] + rest)[1..] == rest;
        FindCons([snippets[0]] + rest, other);
      }
    }
  }

  // ---------------------------------------------------------------------------
  // The rendered list
  // ---------------------------------------------------------------------------

  /** One <li> of #snippet-list: the placeholder, or a link labelled
      "description | language" (interpolated into innerHTML without escaping)
      with its delete button. */
  datatype ListItem = NoSnippets | SnippetLink(id: int, description: string, language: string)

  function LinkOf(s: Snippet): ListItem {
    SnippetLink(s.id, s.description, s.language)
  }

  /** What loadSnippets draws: one link per snippet in stored order, or the
      single "No snippets available." item when there are none. */
  function Render(snippets: seq<Snippet>): (items: seq<ListItem>)
    ensures |items| == if snippets == [] then 1 else |snippets|
    ensures NoSnippets in items <==> snippets == []
    ensures snippets != [] ==> forall k :: 0 <= k < |snippets| ==> items[k] == LinkOf(snippets[k])
  {
    if snippets == [] then [NoSnippets]
    else seq(|snippets|, k requires 0 <= k < |snippets| => LinkOf(snippets[k]))
  }

  // ---------------------------------------------------------------------------
  // Numbers in the data-snippet-id attribute
  // ---------------------------------------------------------------------------

  predicate IsDigit(c: char) {
    '0' <= c <= '9'
  }

  function DigitChar(d: nat): (c: char)
    requires d < 10
    ensures IsDigit(c) && c as int - '0' as int == d
  {
    "0123456789"[d]
  }

  /** String(n) for a natural number below 10^21 (where JavaScript switches to exponent form). */
  function NatToString(n: nat): (r: string)
    ensures |r| >= 1
    ensures forall i :: 0 <= i < |r| ==> IsDigit(r[i])
  {
    if n < 10 then [DigitChar(n)] else NatToString(n / 10) + [DigitChar(n % 10)]
  }

  /** String(n) for an integer id */
  function IntToString(n: int): (r: string)
    ensures |r| >= 1
    ensures r[0] == '-' <==> n < 0
    ensures forall i :: (if n < 0 then 1 else 0) <= i < |r| ==> IsDigit(r[i])
  {
    if n < 0 then "-" + NatToString(-n) else NatToString(n)
  }

  /** The number of leading decimal digits of s. */
  function DigitRun(s: string): (n: nat)
    ensures n <= |s|
    ensures forall i :: 0 <= i < n ==> IsDigit(s[i])
    ensures n < |s| ==> !IsDigit(s[n])
  {
    if s == [] || !IsDigit(s[0]) then 0 else 1 + DigitRun(s[1..])
  }

  function DecimalValue(digits: string): nat
    requires forall i :: 0 <= i < |digits| ==> IsDigit(digits[i])
  {
    if digits == [] then 0
    else
      var last := digits[|digits| - 1];
      assert IsDigit(last);
      DecimalValue(digits[..|digits| - 1]) * 10 + (last as int - '0' as int)
  }

  /** parseInt(s) on a sign and decimal digits: the value of the digits after an
      optional sign; None (NaN) when no digit follows. */
  function ParseInt(s: string): (r: Option<int>)
    ensures s == [] ==> r == None
    ensures s != [] && !IsDigit(s[0]) && s[0] != '-' && s[0] != '+' ==> r == None
    ensures s != [] && IsDigit(s[0]) ==> r.Some? && r.value >= 0
    ensures s != [] && s[0] == '-' && r.Some? ==> r.value <= 0
  {
    var signed := s != [] && (s[0] == '-' || s[0] == '+');
    var body := if signed then s[1..] else s;
    var n := DigitRun(body);
    if n == 0 then None
    else
      var v: int := DecimalValue(body[..n]);
      Some(if signed && s[0] == '-' then -v else v)
  }

  lemma {:induction false} DecimalValueOfNat(n: nat)
    ensures DecimalValue(NatToString(n)) == n
  {
    if n >= 10 {
      DecimalValueOfNat(n / 10);
      var r := NatToString(n);
      assert r[..|r| - 1] == NatToString(n / 10);
    }
  }

  /** parseInt reads back every id the page writes into the attribute. */
  lemma ParseIntOfString(n: int)
    ensures ParseInt(IntToString(n)) == Some(n)
  {
    var digits := NatToString(if n < 0 then -n else n);
    DecimalValueOfNat(if n < 0 then -n else n);
    assert DigitRun(digits) == |digits|;
    assert digits[..|digits|] == digits;
    if n < 0 {
      assert ("-" + digits)[1..] == digits;
    }
  }

  // ---------------------------------------------------------------------------
  // The page
  // ---------------------------------------------------------------------------

  /** parseInt(description.dataset.snippetId) === id: the editor shows the snippet with this id. */
  predicate ShowsId(attr: Option<string>, id: int) {
    attr.Some? && ParseInt(attr.value) == Some(id)
  }

  const NotFoundPrefix := "Snippet with ID "
  const NotFoundSuffix := " not found."

  /** localStorage's "snippets" entry and the parts of the page the snippet
      functions touch. */
  class SnippetPage {
    var storage: Option<seq<Snippet>>  // JSON under "snippets"; None when the key is absent
    var description: string            // #description value
    var language: string               // #language value
    var codeHtml: string               // #code-snippet innerHTML
    var snippetIdAttr: Option<string>  // #description data-snippet-id
    var list: seq<ListItem>            // the items of #snippet-list
    const code: Utils.Element          // #code-snippet's class and highlight state

    constructor (storage: Option<seq<Snippet>>, code: Utils.Element)
      ensures this.storage == storage && this.code == code
      ensures description == "" && language == "python" && codeHtml == ""
      ensures snippetIdAttr == None && list == []
    {
      this.storage := storage;
      this.code := code;
      description := "";
      language := "python";
      codeHtml := "";
      snippetIdAttr := None;
      list := [];
    }

    /** JSON.parse(localStorage.getItem("snippets") || "[]") */
    function Stored(): (r: seq<Snippet>)
      reads this
      ensures storage.None? ==> r == []
      ensures storage.Some? ==> r == storage.value
    {
      match storage
      case None => []
      case Some(snippets) => snippets
    }

    /** loadSnippets() */
    method LoadSnippets()
      modifies this`list
      ensures list == Render(Stored())
    {
      var snippets := Stored();
      list := [];
      if |snippets| == 0 {
        list := [NoSnippets];
      } else {
        var i := 0;
        while i < |snippets|
          invariant 0 <= i <= |snippets|
          invariant |list| == i
          invariant forall k :: 0 <= k < i ==> list[k] == LinkOf(snippets[k])
        {
          list := list + [SnippetLink(snippets[i].id, snippets[i].description, snippets[i].language)];
          i := i + 1;
        }
      }
    }

    /** saveSnippet(description, language, code), with `id` the Date.now() it reads. */
    method SaveSnippet(description: string, language: string, code: string, id: int)
      modifies this`storage, this`list
      ensures storage == Some(old(Stored()) + [Snippet(id, description, language, code)])
      ensures list == Render(Stored())
    {
      var snippets := Stored();
      snippets := snippets + [Snippet(id, description, language, code)];
      storage := Some(snippets);
      LoadSnippets();
    }

    /** deleteSnippet(id): store the filtered list, redraw, and clear the editor
        when it shows the deleted id. */
    method DeleteSnippet(id: int)
      modifies this`storage, this`list, this`description, this`language, this`codeHtml, this`snippetIdAttr
      ensures storage == Some(WithoutId(old(Stored()), id))
      ensures list == Render(Stored())
      ensures ShowsId(old(snippetIdAttr), id) ==>
        description == "" && language == "python" && codeHtml == "" && snippetIdAttr == None
      ensures !ShowsId(old(snippetIdAttr), id) ==>
        description == old(description) && language == old(language) && codeHtml == old(codeHtml)
        && snippetIdAttr == old(snippetIdAttr)
    {
      var snippets := Stored();
      snippets := WithoutId(snippets, id);
      storage := Some(snippets);
      LoadSnippets();
      ClearEditorShowing(id);
    }

    /** The end of deleteSnippet: empty the editor when it shows the deleted id. */
    method ClearEditorShowing(id: int)
      modifies this`description, this`language, this`codeHtml, this`snippetIdAttr
      ensures ShowsId(old(snippetIdAttr), id) ==>
        description == "" && language == "python" && codeHtml == "" && snippetIdAttr == None
      ensures !ShowsId(old(snippetIdAttr), id) ==>
        description == old(description) && language == old(language) && codeHtml == old(codeHtml)
        && snippetIdAttr == old(snippetIdAttr)
    {
      if ShowsId(snippetIdAttr, id) {
        description := "";
        language := "python";
        codeHtml := "";
        snippetIdAttr := None;
      }
    }

    /** loadSnippet(id): show the first snippet with this id in the editor, or
        report that there is none and leave the editor alone. */
    method LoadSnippet(id: int) returns (error: Option<string>)
      modifies this`description, this`language, this`codeHtml, this`snippetIdAttr
      modifies code`className, code`highlighted
      ensures match Find(Stored(), id)
        case None =>
          error == Some(NotFoundPrefix + IntToString(id) + NotFoundSuffix)
          && description == old(description) && language == old(language) && codeHtml == old(codeHtml)
          && snippetIdAttr == old(snippetIdAttr)
          && code.className == old(code.className) && code.highlighted == old(code.highlighted)
        case Some(s) =>
          error == None && description == s.description && language == s.language
          && codeHtml == Utils.Escape(s.code) && snippetIdAttr == Some(IntToString(id))
          && code.className == Utils.CodeClassName(s.language) && !code.IsHighlighted()
    {
      var snippet := Find(Stored(), id);
      match snippet
      case Some(s) =>
        error := None;
        description := s.description;
        language := s.language;
        codeHtml := Utils.Escape(s.code);
        snippetIdAttr := Some(IntToString(s.id));
        Utils.UpdateCodeClass(code, s.language);
      case None =>
        error := Some(NotFoundPrefix + IntToString(id) + NotFoundSuffix);
    }
  }

  /** Opening a snippet and then deleting it leaves an empty editor. */
  method OpenThenDelete(page: SnippetPage, id: int)
    modifies page, page.code
    ensures Find(old(page.Stored()), id).Some? ==>
      page.description == "" && page.codeHtml == "" && page.language == "python" && page.snippetIdAttr == None
    ensures page.Stored() == WithoutId(old(page.Stored()), id)
  {
    var _ := page.LoadSnippet(id);
    ParseIntOfString(id);
    page.DeleteSnippet(id);
  }
}
