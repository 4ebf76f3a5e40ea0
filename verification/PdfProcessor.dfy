/**
 * The process-information extractor of a petition PDF, applied to the text the PDF parser
 * produced. A case number is looked up first as a run of twenty digits and then in an ordered
 * list of alternative formats; the class, the judging body and the subject are the rest of the
 * line after their labels. Every failure, including a missing number, surfaces as one message.
 *
 * The regular expressions are modelled with their JavaScript meaning: `match` returns the
 * leftmost match, and at a given position the greedy quantifiers backtrack from their longest
 * choice.
 */
module PdfProcessor {
  import opened Results
  import opened Text

  datatype ProcessInfo = ProcessInfo(
    numeroProcesso: string,
    tipoPeticao: string,
    classeProcessual: string,
    orgaoJulgador: string,
    assunto: string)

  const TipoIntermediaria: string := "Petição Intermediária"
  const NumberNotFound: string := "Número do processo não encontrado no PDF"
  const PdfFailure: string := "Erro ao processar o arquivo PDF"

  // ---------------------------------------------------------------------------------------
  // Case number formats
  // ---------------------------------------------------------------------------------------

  /** A fixed-shape pattern: `D` stands for `\d`, every other character for itself. */
  predicate TemplateAt(text: string, i: nat, template: string)
  {
    i + |template| <= |text|
    && forall k :: 0 <= k < |template| ==>
         if template[k] == 'D' then IsDigit(text[i + k]) else text[i + k] == template[k]
  }

  /** `c` repeated `n` times. */
  function Repeat(c: char, n: nat): (r: string)
    ensures |r| == n && forall k :: 0 <= k < n ==> r[k] == c
  {
    if n == 0 then [] else [c] + Repeat(c, n - 1)
  }

  /** `\d{20}` */
  const Twenty: string := Repeat('D', 20)
  /** `\d{7}-\d{2}\.\d{4}\.\d{1,2}\.\d{2}\.\d{4}` with two, and with one, digits for `\d{1,2}` */
  const DottedTwo: string := "DDDDDDD-DD.DDDD.DD.DD.DDDD"
  const DottedOne: string := "DDDDDDD-DD.DDDD.D.DD.DDDD"
  /** the `\.\d{4}` that the longer dotted format appends */
  const Suffix: string := ".DDDD"

  /** The three number formats of the extractor. */
  datatype Pattern =
    | TwentyDigits       // \d{20}
    | Dotted             // 0000000-00.0000.0.00.0000
    | DottedWithSuffix   // 0000000-00.0000.0.00.0000.0000

  /**
   * The length of the match of `p` starting at index `i`, if any. For the dotted formats the
   * greedy `\d{1,2}` tries two digits before one.
   */
  function MatchAt(p: Pattern, text: string, i: nat): (r: Option<nat>)
    ensures r.Some? ==> i + r.value <= |text|
  {
    match p
    case TwentyDigits =>
      if TemplateAt(text, i, Twenty) then Some(|Twenty|) else None
    case Dotted =>
      if TemplateAt(text, i, DottedTwo) then Some(|DottedTwo|)
      else if TemplateAt(text, i, DottedOne) then Some(|DottedOne|)
      else None
    case DottedWithSuffix =>
      if TemplateAt(text, i, DottedTwo + Suffix) then Some(|DottedTwo + Suffix|)
      else if TemplateAt(text, i, DottedOne + Suffix) then Some(|DottedOne + Suffix|)
      else None
  }

  /** `text.match(p)` from index `from` on: the leftmost match, as its start and its length. */
  function Search(p: Pattern, text: string, from: nat): (r: Option<(nat, nat)>)
    ensures r.Some? ==> from <= r.value.0 && MatchAt(p, text, r.value.0) == Some(r.value.1)
    ensures r.Some? ==> forall j :: from <= j < r.value.0 ==> MatchAt(p, text, j).None?
    ensures r.None? ==> forall j :: from <= j ==> MatchAt(p, text, j).None?
    decreases |text| - from
  {
    if from > |text| then None
    else
      match MatchAt(p, text, from)
      case Some(n) => Some((from, n))
      case None => Search(p, text, from + 1)
  }

  /** The matched substring `match[0]`, if `p` matches anywhere in `text`. */
  function Matched(p: Pattern, text: string): (r: Option<string>)
    ensures r.Some? <==> exists i :: MatchAt(p, text, i).Some?
  {
    match Search(p, text, 0)
    case None => None
    case Some((i, n)) => Some(text[i..i + n])
  }

  /** `match[0]` is the text matched at the leftmost index where the format matches. */
  lemma MatchedIsLeftmost(p: Pattern, text: string, i: nat)
    requires MatchAt(p, text, i).Some?
    requires forall j :: 0 <= j < i ==> MatchAt(p, text, j).None?
    ensures Matched(p, text) == Some(text[i..i + MatchAt(p, text, i).value])
  {
    var r := Search(p, text, 0);
    assert r.Some?;
    assert r.value.0 == i;
  }

  /** The alternative formats, in the order the extractor tries them. */
  const Fallbacks: seq<Pattern> := [Dotted, TwentyDigits, DottedWithSuffix]

  /**
   * The loop over the alternative formats: the first format, from index `k` on, that matches
   * somewhere, with its matched text.
   */
  function FirstFormat(text: string, formats: seq<Pattern>, k: nat): (r: Option<(nat, string)>)
    requires k <= |formats|
    ensures r.Some? ==> k <= r.value.0 < |formats| && Matched(formats[r.value.0], text) == Some(r.value.1)
    ensures r.Some? ==> forall j :: k <= j < r.value.0 ==> Matched(formats[j], text).None?
    ensures r.None? ==> forall j :: k <= j < |formats| ==> Matched(formats[j], text).None?
    decreases |formats| - k
  {
    if k == |formats| then None
    else
      match Matched(formats[k], text)
      case Some(m) => Some((k, m))
      case None => FirstFormat(text, formats, k + 1)
  }

  // ---------------------------------------------------------------------------------------
  // Labelled fields: /<label>\s*([^\n]+)/i
  // ---------------------------------------------------------------------------------------

  const ClasseLabel: string := "Classe:"
  const OrgaoLabel: string := "Órgão Julgador:"
  const AssuntoLabel: string := "Assunto:"

  /** The label occurs at `i`, compared case-insensitively. */
  predicate LabelAt(text: string, fieldLabel: string, i: nat)
  {
    i + |fieldLabel| <= |text|
    && forall k :: 0 <= k < |fieldLabel| ==> SameIgnoringCase(text[i + k], fieldLabel[k])
  }

  /**
   * `s` is a place where `\s*` starting at `q` can stop and `([^\n]+)` can begin: only `\s`
   * between `q` and `s`, and a character other than a line feed at `s`.
   */
  predicate GroupStartOk(text: string, q: nat, s: nat)
  {
    q <= s < |text| && text[s] != '\n' && forall m :: q <= m < s ==> IsSpace(text[m])
  }

  /** Greatest index in `[lo, j)` whose character is not a line feed. */
  function LastNonNewline(text: string, lo: nat, j: nat): (r: Option<nat>)
    requires lo <= j <= |text|
    ensures r.Some? ==> lo <= r.value < j && text[r.value] != '\n'
    ensures r.Some? ==> forall m :: r.value < m < j ==> text[m] == '\n'
    ensures r.None? ==> forall m :: lo <= m < j ==> text[m] == '\n'
    decreases j - lo
  {
    if j == lo then None
    else if text[j - 1] != '\n' then Some(j - 1)
    else LastNonNewline(text, lo, j - 1)
  }

  /**
   * Where the captured group begins when the label ends at `q`. The greedy `\s*` gives back
   * characters one at a time, so the group begins at the greatest admissible place: right after
   * the whitespace when a character follows it, and otherwise (whitespace to the end of the
   * text) at the last whitespace character that is not a line feed.
   */
  function GroupStart(text: string, q: nat): (r: Option<nat>)
    requires q <= |text|
    ensures r.Some? ==> GroupStartOk(text, q, r.value)
    ensures r.Some? ==> forall s: nat :: GroupStartOk(text, q, s) ==> s <= r.value
    ensures r.None? ==> forall s: nat :: !GroupStartOk(text, q, s)
  {
    var k := SkipSpace(text, q);
    if k < |text| then
      Some(k)
    else
      LastNonNewline(text, q, k)
  }

  /** End of the line that contains index `s`: the next line feed, or the end of the text. */
  function LineEnd(text: string, s: nat): (e: nat)
    requires s <= |text|
    ensures s <= e <= |text|
    ensures forall m :: s <= m < e ==> text[m] != '\n'
    ensures e < |text| ==> text[e] == '\n'
    decreases |text| - s
  {
    if s == |text| || text[s] == '\n' then s else LineEnd(text, s + 1)
  }

  /** The match of the field expression at `i`: the captured group as a slice `[s, e)`. */
  function FieldAt(text: string, fieldLabel: string, i: nat): (r: Option<(nat, nat)>)
    ensures r.Some? ==> LabelAt(text, fieldLabel, i) && r.value.0 <= r.value.1 <= |text|
  {
    if !LabelAt(text, fieldLabel, i) then None
    else
      match GroupStart(text, i + |fieldLabel|)
      case None => None
      case Some(s) => Some((s, LineEnd(text, s)))
  }

  /** The leftmost match of the field expression from `from` on. */
  function FindField(text: string, fieldLabel: string, from: nat): (r: Option<(nat, nat, nat)>)
    ensures r.Some? ==> from <= r.value.0 && FieldAt(text, fieldLabel, r.value.0) == Some((r.value.1, r.value.2))
    ensures r.Some? ==> forall j :: from <= j < r.value.0 ==> FieldAt(text, fieldLabel, j).None?
    ensures r.None? ==> forall j :: from <= j ==> FieldAt(text, fieldLabel, j).None?
    decreases |text| - from
  {
    if from > |text| then None
    else
      match FieldAt(text, fieldLabel, from)
      case Some((s, e)) => Some((from, s, e))
      case None => FindField(text, fieldLabel, from + 1)
  }

  /** `match ? match[1].trim() : ''` */
  function FieldValue(text: string, fieldLabel: string): (v: string)
    ensures '\n' !in v
    ensures v != [] ==> !IsSpace(v[0]) && !IsSpace(v[|v| - 1])
    ensures (forall i :: !LabelAt(text, fieldLabel, i)) ==> v == ""
    ensures (forall i :: FieldAt(text, fieldLabel, i).None?) ==> v == ""
  {
    match FindField(text, fieldLabel, 0)
    case None => ""
    case Some((_, s, e)) => Trim(text[s..e])
  }

  // ---------------------------------------------------------------------------------------
  // The extractor
  // ---------------------------------------------------------------------------------------

  /** The body of the `try` block once the text is known; its errors are those it throws. */
  function ExtractFromText(fullText: string): (r: Result<ProcessInfo>)
    ensures r.Ok? ==> r.value.tipoPeticao == TipoIntermediaria
    ensures Matched(TwentyDigits, fullText).Some? ==> r.Ok? && |r.value.numeroProcesso| == 20
    ensures Matched(TwentyDigits, fullText).None? && r.Ok? ==>
              r.value.classeProcessual == "" && r.value.orgaoJulgador == "" && r.value.assunto == ""
    ensures r.Err? ==> r.error == Fail(NumberNotFound)
  {
    match Search(TwentyDigits, fullText, 0)
    case Some((i, n)) =>
      Ok(ProcessInfo(
           fullText[i..i + n],
           TipoIntermediaria,
           FieldValue(fullText, ClasseLabel),
           FieldValue(fullText, OrgaoLabel),
           FieldValue(fullText, AssuntoLabel)))
    case None =>
      match FirstFormat(fullText, Fallbacks, 0)
      case Some((_, m)) => Ok(ProcessInfo(m, TipoIntermediaria, "", "", ""))
      case None => Err(Fail(NumberNotFound))
  }

  /**
   * `extractProcessInfo`. The file read and the PDF parser are not modelled: `pdfText` is the
   * text they produced, or the error they threw. The `catch` replaces every error with one.
   */
  function ExtractProcessInfo(pdfText: Result<string>): (r: Result<ProcessInfo>)
    ensures r.Err? ==> r.error == Fail(PdfFailure)
    ensures pdfText.Err? ==> r.Err?
    ensures r.Ok? ==> pdfText.Ok? && r.value.tipoPeticao == TipoIntermediaria
  {
    match pdfText
    case Err(_) => Err(Fail(PdfFailure))
    case Ok(fullText) =>
      match ExtractFromText(fullText)
      case Ok(info) => Ok(info)
      case Err(_) => Err(Fail(PdfFailure))
  }

  // ---------------------------------------------------------------------------------------
  // Properties
  // ---------------------------------------------------------------------------------------

  /**
   * The case number is the leftmost run of twenty digits; inside a longer run of digits it is
   * that run's first twenty, since the character before it is not a digit.
   */
  lemma {:induction false} NumberIsLeftmostTwentyDigits(text: string, i: nat)
    requires TemplateAt(text, i, Twenty)
    requires forall j :: 0 <= j < i ==> !TemplateAt(text, j, Twenty)
    ensures ExtractProcessInfo(Ok(text))
            == Ok(ProcessInfo(text[i..i + 20], TipoIntermediaria,
                              FieldValue(text, ClasseLabel), FieldValue(text, OrgaoLabel),
                              FieldValue(text, AssuntoLabel)))
    ensures forall k :: i <= k < i + 20 ==> IsDigit(text[k])
    ensures i == 0 || !IsDigit(text[i - 1])
  {
    TwentyDigitsFoundAt(text, i);
    var info := ProcessInfo(text[i..i + 20], TipoIntermediaria,
                            FieldValue(text, ClasseLabel), FieldValue(text, OrgaoLabel),
                            FieldValue(text, AssuntoLabel));
    assert ExtractFromText(text) == Ok(info);
    forall k | i <= k < i + 20 ensures IsDigit(text[k]) {
      assert Twenty[k - i] == 'D';
    }
    if i > 0 {
      DigitExtendsRun(text, i - 1);
    }
  }

  /** A digit just before twenty digits starts twenty digits of its own. */
  lemma DigitExtendsRun(text: string, j: nat)
    requires TemplateAt(text, j + 1, Twenty)
    ensures IsDigit(text[j]) ==> TemplateAt(text, j, Twenty)
  {
    forall m | j + 1 <= m < j + |Twenty| ensures IsDigit(text[m]) {
      assert Twenty[m - (j + 1)] == 'D';
    }
  }

  /** The search for twenty digits stops at the first place they occur. */
  lemma TwentyDigitsFoundAt(text: string, i: nat)
    requires TemplateAt(text, i, Twenty)
    requires forall j :: 0 <= j < i ==> !TemplateAt(text, j, Twenty)
    ensures Search(TwentyDigits, text, 0) == Some((i, 20))
  {
    assert MatchAt(TwentyDigits, text, i) == Some(20);
    var r := Search(TwentyDigits, text, 0);
    assert r.Some?;
    assert r.value.0 <= i;
    assert TemplateAt(text, r.value.0, Twenty);
  }

  /** Text that matches the longer dotted format at `i` also matches the shorter one there. */
  lemma SuffixFormatImpliesDotted(text: string, i: nat)
    ensures MatchAt(DottedWithSuffix, text, i).Some? ==> MatchAt(Dotted, text, i).Some?
  {
    assert forall k :: 0 <= k < |DottedTwo| ==> (DottedTwo + Suffix)[k] == DottedTwo[k];
    assert forall k :: 0 <= k < |DottedOne| ==> (DottedOne + Suffix)[k] == DottedOne[k];
    assert TemplateAt(text, i, DottedTwo + Suffix) ==> TemplateAt(text, i, DottedTwo);
    assert TemplateAt(text, i, DottedOne + Suffix) ==> TemplateAt(text, i, DottedOne);
  }

  /**
   * The alternative formats come down to the shorter dotted one: the `\d{20}` entry cannot
   * match (the same expression has just failed), and the longer dotted format is never chosen
   * because any text it matches is matched by the shorter one, which is tried first.
   */
  lemma {:induction false} FallbackIsDottedFormat(text: string)
    requires Matched(TwentyDigits, text).None?
    ensures FirstFormat(text, Fallbacks, 0)
            == (match Matched(Dotted, text)
                case None => None
                case Some(m) => Some((0, m)))
  {
    forall i: nat ensures MatchAt(DottedWithSuffix, text, i).Some? ==> MatchAt(Dotted, text, i).Some? {
      SuffixFormatImpliesDotted(text, i);
    }
    if Matched(Dotted, text).None? {
      assert Matched(DottedWithSuffix, text).None?;
      assert Matched(Fallbacks[2], text).None?;
      assert FirstFormat(text, Fallbacks, 3) == None;
    }
  }

  /**
   * Extraction succeeds exactly when the text holds a twenty-digit run or a number in the
   * shorter dotted format; the fallback number is the leftmost dotted match.
   */
  lemma ExtractionSucceedsIff(text: string)
    ensures ExtractProcessInfo(Ok(text)).Ok?
            <==> (exists i :: TemplateAt(text, i, Twenty)) || (exists i :: MatchAt(Dotted, text, i).Some?)
    ensures Matched(TwentyDigits, text).None? && Matched(Dotted, text).Some? ==>
              ExtractProcessInfo(Ok(text)) == Ok(ProcessInfo(Matched(Dotted, text).value, TipoIntermediaria, "", "", ""))
  {
    forall i: nat ensures TemplateAt(text, i, Twenty) <==> MatchAt(TwentyDigits, text, i).Some? { }
    if Matched(TwentyDigits, text).None? {
      FallbackIsDottedFormat(text);
    }
  }

  /**
   * A labelled field is the trimmed rest of the line that follows the first occurrence of the
   * label (case-insensitive) with a non-line-feed character after its whitespace; when the
   * whitespace reaches the next character, the value is the rest of that character's line,
   * and when it reaches the end of the text, the value is empty.
   */
  lemma FieldValueAtFirstOccurrence(text: string, fieldLabel: string, i: nat)
    requires FieldAt(text, fieldLabel, i).Some?
    requires forall j :: 0 <= j < i ==> FieldAt(text, fieldLabel, j).None?
    ensures var k := SkipSpace(text, i + |fieldLabel|);
            && (k < |text| ==> FieldValue(text, fieldLabel) == Trim(text[k..LineEnd(text, k)]))
            && (k == |text| ==> FieldValue(text, fieldLabel) == "")
  {
    var q := i + |fieldLabel|;
    var k := SkipSpace(text, q);
    var r := FindField(text, fieldLabel, 0);
    assert r.Some? && r.value.0 == i;
    var s, e := r.value.1, r.value.2;
    assert FieldValue(text, fieldLabel) == Trim(text[s..e]);
    if k == |text| {
      assert GroupStart(text, q) == Some(s);
      assert forall m :: s <= m < e ==> IsSpace(text[m]);
      assert AllSpace(text[s..e]);
    }
  }
}
