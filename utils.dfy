/** Text extraction: the role description read from a text file and
    stripped, and the CV's page texts joined into one string. The file
    system and the PDF library are given as what they deliver. */
module Utils {
  import opened Values

  // ---------------------------------------------------------------------
  // Role description

  /** Python's `str.isspace()` for one character. */
  predicate IsSpace(c: char)
  {
    || ('\t' <= c <= '\r')
    || ('\U{1C}' <= c <= ' ')
    || c == '\U{85}' || c == '\U{A0}' || c == '\U{1680}'
    || ('\U{2000}' <= c <= '\U{200A}')
    || c == '\U{2028}' || c == '\U{2029}' || c == '\U{202F}' || c == '\U{205F}' || c == '\U{3000}'
  }

  predicate AllSpace(s: string)
  {
    forall i :: 0 <= i < |s| ==> IsSpace(s[i])
  }

  /** The number of whitespace characters `s` starts with. */
  function LeadingSpace(s: string): (n: nat)
    ensures n <= |s|
    ensures forall i :: 0 <= i < n ==> IsSpace(s[i])
    ensures n < |s| ==> !IsSpace(s[n])
  {
    if s == [] || !IsSpace(s[0]) then 0 else 1 + LeadingSpace(s[1..])
  }

  /** The number of whitespace characters `s` ends with. */
  function TrailingSpace(s: string): (n: nat)
    ensures n <= |s|
    ensures forall i :: |s| - n <= i < |s| ==> IsSpace(s[i])
    ensures n < |s| ==> !IsSpace(s[|s| - 1 - n])
  {
    if s == [] || !IsSpace(s[|s| - 1]) then 0 else 1 + TrailingSpace(s[..|s| - 1])
  }

  /** `str.strip()`: the text between the leading and the trailing
      whitespace, which is removed; the text in between is kept as it is. */
  function Strip(s: string): (r: string)
    ensures LeadingSpace(s) + |r| <= |s|
    ensures r == s[LeadingSpace(s)..LeadingSpace(s) + |r|]
    ensures forall i :: 0 <= i < LeadingSpace(s) ==> IsSpace(s[i])
    ensures forall i :: LeadingSpace(s) + |r| <= i < |s| ==> IsSpace(s[i])
    ensures r == [] || (!IsSpace(r[0]) && !IsSpace(r[|r| - 1]))
  {
    var lead := LeadingSpace(s);
    var rest := s[lead..];
    var trail := TrailingSpace(rest);
    rest[..|rest| - trail]
  }

  /** Strip takes back exactly the text that whitespace surrounds. */
  lemma StripSurrounded(lead: string, text: string, trail: string)
    requires AllSpace(lead) && AllSpace(trail)
    requires text == [] || (!IsSpace(text[0]) && !IsSpace(text[|text| - 1]))
    ensures Strip(lead + text + trail) == text
  {
    var s := lead + text + trail;
    var n := LeadingSpace(s);
    if text == [] {
      assert forall i :: 0 <= i < |s| ==> IsSpace(s[i]) by {
        forall i | 0 <= i < |s| ensures IsSpace(s[i]) {
          if i < |lead| { assert s[i] == lead[i]; } else { assert s[i] == trail[i - |lead|]; }
        }
      }
      assert n == |s|;
    } else {
      assert s[|lead|] == text[0];
      assert forall i :: 0 <= i < |lead| ==> s[i] == lead[i];
      assert n == |lead|;
      var rest := s[n..];
      assert rest == text + trail;
      var m := TrailingSpace(rest);
      assert rest[|text| - 1] == text[|text| - 1];
      assert forall i :: |text| <= i < |rest| ==> rest[i] == trail[i - |text|];
      assert m == |trail|;
      assert rest[..|rest| - m] == text;
    }
  }

  /** Stripping twice is stripping once. */
  lemma StripIdempotent(s: string)
    ensures Strip(Strip(s)) == Strip(s)
  {
    var r := Strip(s);
    assert [] + r + [] == r;
    StripSurrounded([], r, []);
  }

  /** What opening and reading the role file gives. */
  datatype RoleFile =
    | RoleNotFound        // FileNotFoundError
    | RoleUnreadable      // any other IOError: permissions, a directory, ...
    | RoleNotUtf8         // the content does not decode as UTF-8
    | RoleText(content: string)

  /** `RoleProcessor.process`: the stripped content; None, with a message,
      when the file is missing or unreadable. A decoding error is not an
      IOError and escapes. */
  function ProcessRole(file: RoleFile): (r: Outcome<Option<string>>)
    ensures r == Returned(None) <==> file.RoleNotFound? || file.RoleUnreadable?
    ensures r.Raised? <==> file.RoleNotUtf8?
    ensures file.RoleText? ==> r.Returned? && r.value.Some?
                               && r.value.value == Strip(file.content)
  {
    match file
    case RoleNotFound => Returned(None)
    case RoleUnreadable => Returned(None)
    case RoleNotUtf8 => Raised(UnicodeDecodeError)
    case RoleText(content) => Returned(Some(Strip(content)))
  }

  // ---------------------------------------------------------------------
  // CV text from the PDF's pages

  /** Python truthiness of a page's extracted text. */
  predicate HasText(page: Option<string>)
  {
    page.Some? && page.value != ""
  }

  /** The texts of the pages that have text, in page order. */
  function KeptPages(pages: seq<Option<string>>): (kept: seq<string>)
    ensures |kept| <= |pages|
    ensures forall i :: 0 <= i < |kept| ==> kept[i] != ""
  {
    if pages == [] then []
    else
      var last := pages[|pages| - 1];
      KeptPages(pages[..|pages| - 1]) + (if HasText(last) then [last.value] else [])
  }

  /** `" ".join(texts)`: the first text opens the result and the last one
      closes it. */
  function Join(texts: seq<string>): (r: string)
    ensures texts == [] ==> r == ""
    ensures texts != [] ==> |texts[0]| <= |r| && r[..|texts[0]|] == texts[0]
    ensures texts != [] ==> |texts[|texts| - 1]| <= |r| && r[|r| - |texts[|texts| - 1]|..] == texts[|texts| - 1]
  {
    if texts == [] then ""
    else if |texts| == 1 then texts[0]
    else
      var front := texts[..|texts| - 1];
      assert front[0] == texts[0];
      Join(front) + " " + texts[|texts| - 1]
  }

  /** The text `extract_text` returns for readable pages: None exactly when
      no page has text, and never an empty text. */
  function JoinedText(pages: seq<Option<string>>): (r: Option<string>)
    ensures r.None? <==> forall i :: 0 <= i < |pages| ==> !HasText(pages[i])
    ensures r.Some? ==> r.value != ""
  {
    var kept := KeptPages(pages);
    KeptPagesEmptyIff(pages);
    if kept == [] then None else Some(Join(kept))
  }

  lemma {:induction false} KeptPagesAppend(a: seq<Option<string>>, b: seq<Option<string>>)
    ensures KeptPages(a + b) == KeptPages(a) + KeptPages(b)
    decreases |b|
  {
    if b == [] {
      assert a + b == a;
    } else {
      var b' := b[..|b| - 1];
      assert (a + b)[..|a + b| - 1] == a + b';
      KeptPagesAppend(a, b');
    }
  }

  lemma {:induction false} KeptPagesEmptyIff(pages: seq<Option<string>>)
    ensures KeptPages(pages) == [] <==> forall i :: 0 <= i < |pages| ==> !HasText(pages[i])
  {
    if pages != [] {
      var front := pages[..|pages| - 1];
      KeptPagesEmptyIff(front);
      assert forall i :: 0 <= i < |front| ==> front[i] == pages[i];
    }
  }

  /** A page without text, anywhere, changes nothing: no text and no
      separator. */
  lemma PageWithoutTextIgnored(before: seq<Option<string>>, page: Option<string>, after: seq<Option<string>>)
    requires !HasText(page)
    ensures JoinedText(before + [page] + after) == JoinedText(before + after)
  {
    KeptPagesAppend(before + [page], after);
    KeptPagesAppend(before, [page]);
    KeptPagesAppend(before, after);
    assert [page][..0] == [];
    assert KeptPages([page]) == KeptPages([]) + [];
    assert KeptPages(before + [page] + after) == KeptPages(before + after);
  }

  /** The first page with text gives the text alone; each later page with
      text adds exactly one space and its text, after what came before. */
  lemma PageWithTextAppended(before: seq<Option<string>>, text: string)
    requires text != ""
    ensures JoinedText(before + [Some(text)]) ==
            match JoinedText(before)
            case None => Some(text)
            case Some(prefix) => Some(prefix + " " + text)
  {
    var kept := KeptPages(before);
    assert (before + [Some(text)])[..|before|] == before;
    assert KeptPages(before + [Some(text)]) == kept + [text];
    assert (kept + [text])[..|kept|] == kept;
  }

  /** What opening and parsing the CV gives. */
  datatype PdfFile =
    | PdfNotFound                          // FileNotFoundError
    | PdfUnreadable                        // any other IOError
    | PdfMalformed                         // the PDF library rejects the file
    | PdfPages(pages: seq<Option<string>>) // each page's extracted text

  /** What `PDFProcessor.extract_text` returns or raises: only an
      unparsable PDF raises; a missing or unreadable file gives None, like
      a PDF without any page text; otherwise the text is the non-empty
      page texts joined with single spaces, and never empty. */
  function PdfText(file: PdfFile): (r: Outcome<Option<string>>)
    ensures r.Raised? <==> file.PdfMalformed?
    ensures r == Returned(None) <==>
              || file.PdfNotFound? || file.PdfUnreadable?
              || (file.PdfPages? && forall i :: 0 <= i < |file.pages| ==> !HasText(file.pages[i]))
    ensures r.Returned? && r.value.Some? ==> file.PdfPages? && r.value.value != ""
    ensures file.PdfPages? ==> r == Returned(JoinedText(file.pages))
  {
    match file
    case PdfNotFound => Returned(None)
    case PdfUnreadable => Returned(None)
    case PdfMalformed => Raised(PdfReadError)
    case PdfPages(pages) => Returned(JoinedText(pages))
  }

  /** `PDFProcessor.extract_text`: collect the page texts that are not
      empty, in page order, then join them with single spaces. */
  method ExtractText(file: PdfFile) returns (r: Outcome<Option<string>>)
    ensures r == PdfText(file)
  {
    match file {
      case PdfNotFound => return Returned(None);
      case PdfUnreadable => return Returned(None);
      case PdfMalformed => return Raised(PdfReadError);
      case PdfPages(pages) =>
        var text: seq<string> := [];
        for i := 0 to |pages|
          invariant text == KeptPages(pages[..i])
        {
          var pageText := pages[i];
          assert pages[..i + 1][..i] == pages[..i];
          if pageText.Some? && pageText.value != "" {
            text := text + [pageText.value];
          }
        }
        assert pages[..|pages|] == pages;
        return Returned(if text != [] then Some(Join(text)) else None);
    }
  }
}
