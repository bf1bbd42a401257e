/**
 * The text processors and `TextProcessorWrapper.process`, which runs them in
 * order over a mail body and records one `ProcessingAudit` per processor.
 */
module TextProcessor {
  import opened Wrappers
  import opened PyStr
  import opened Util
  import opened NewsletterCleaner

  /**
   * The concrete processors. `HtmlProcessor` hands the text to BeautifulSoup,
   * whose text extraction is not modelled: the variant carries it as a function.
   * Both cleaners remove e-mail addresses and normalise whitespace unless told
   * otherwise, as their constructor's defaults say.
   */
  datatype Processor =
    | Html(extract: string -> string)
    | Newsletter(patterns: Patterns, removeEmails: bool := true, normalizeWhitespace: bool := true)
    | AggressiveNewsletter(patterns: Patterns, aggressive: seq<Deletion>,
                           removeEmails: bool := true, normalizeWhitespace: bool := true)

  /** `str(processor)`: the processor's class name. */
  function Name(p: Processor): (name: string)
    ensures name == "HtmlProcessor" <==> p.Html?
    ensures name == "NewsletterCleaner" <==> p.Newsletter?
    ensures name == "AggressiveNewsletterCleaner" <==> p.AggressiveNewsletter?
  {
    match p
    case Html(_) => "HtmlProcessor"
    case Newsletter(_, _, _) => "NewsletterCleaner"
    case AggressiveNewsletter(_, _, _, _) => "AggressiveNewsletterCleaner"
  }

  /**
   * `processor.process_text(text, source)`; no processor reads `source`, which
   * the mail processor fills with the sender's address and so may be `None`.
   * The cleaners map empty text to empty text, never lengthen it and strip it.
   */
  function ProcessText(p: Processor, text: string, source: Option<string>): (r: string)
    ensures !p.Html? ==> |r| <= |text|
  {
    match p
    case Html(extract) => extract(text)
    case Newsletter(patterns, removeEmails, normalize) => Clean(removeEmails, normalize, patterns, text)
    case AggressiveNewsletter(patterns, aggressive, removeEmails, normalize) =>
      AggressiveClean(removeEmails, normalize, patterns, aggressive, text)
  }

  /** A `NewsletterCleaner` that normalises whitespace strips every line of its result. */
  lemma NewsletterLinesStripped(p: Processor, text: string, source: Option<string>)
    requires p.Newsletter? && p.normalizeWhitespace
    ensures LinesStripped(ProcessText(p, text, source))
  {
    CleanLinesStripped(p.removeEmails, p.patterns, text);
  }

  /** The cleaners never lengthen the text, so their savings are never negative. */
  lemma CleanerSavingsNonNegative(p: Processor, text: string, source: Option<string>)
    requires !p.Html?
    ensures |ProcessText(p, text, source)| <= |text|
    ensures CalculateSavings(|text|, |ProcessText(p, text, source)|) >= 0.0
  {
    var out := ProcessText(p, text, source);
    if |text| > 0 {
      SavingsSign(|text|, |out|);
    }
  }

  /**
   * `ProcessingAudit` of the text module: one stage of the chain. The stage
   * duration is wall-clock time and is not modelled.
   */
  datatype StageAudit = StageAudit(
    processorName: string,
    startTextSize: nat,
    endTextSize: nat,
    savingsPercentage: real,
    tokensUsed: nat)

  /**
   * The stage function of a chain handed `source`: each processor's
   * `process_text(text, source)`.
   */
  function Stage(source: Option<string>): (Processor, string) -> string
  {
    (p: Processor, t: string) => ProcessText(p, t, source)
  }

  /**
   * The processors `ps` applied left to right by the stage function `run`:
   * `[A, B]` gives `B(A(text))`; no processor leaves the text as it is.
   */
  function RunChain(run: (Processor, string) -> string, ps: seq<Processor>, text: string): string
    decreases |ps|
  {
    if ps == [] then text else run(ps[|ps| - 1], RunChain(run, ps[..|ps| - 1], text))
  }

  /** The audit of the stage that runs `p` on `input` with the stage function `run`. */
  function AuditWith(run: (Processor, string) -> string, p: Processor, input: string): StageAudit
  {
    var output := run(p, input);
    StageAudit(Name(p), |input|, |output|, CalculateSavings(|input|, |output|), 0)
  }

  /** The audits a chain run by `run` records, one per processor, in processor order. */
  function AuditsWith(run: (Processor, string) -> string, ps: seq<Processor>, text: string): seq<StageAudit>
    decreases |ps|
  {
    if ps == [] then []
    else
      var prefix := ps[..|ps| - 1];
      AuditsWith(run, prefix, text) + [AuditWith(run, ps[|ps| - 1], RunChain(run, prefix, text))]
  }

  lemma {:induction false} AuditsWithLength(run: (Processor, string) -> string, ps: seq<Processor>, text: string)
    ensures |AuditsWith(run, ps, text)| == |ps|
    decreases |ps|
  {
    if ps != [] {
      AuditsWithLength(run, ps[..|ps| - 1], text);
    }
  }

  lemma RunChainStep(run: (Processor, string) -> string, ps: seq<Processor>, text: string, i: nat)
    requires i < |ps|
    ensures RunChain(run, ps[..i + 1], text) == run(ps[i], RunChain(run, ps[..i], text))
  {
    assert ps[..i + 1][..i] == ps[..i];
  }

  lemma AuditsWithStep(run: (Processor, string) -> string, ps: seq<Processor>, text: string, i: nat)
    requires i < |ps|
    ensures AuditsWith(run, ps[..i + 1], text)
         == AuditsWith(run, ps[..i], text) + [AuditWith(run, ps[i], RunChain(run, ps[..i], text))]
  {
    assert ps[..i + 1][..i] == ps[..i];
  }

  lemma {:induction false} AuditsWithAt(run: (Processor, string) -> string, ps: seq<Processor>, text: string, i: nat)
    requires i < |ps|
    ensures |AuditsWith(run, ps, text)| == |ps|
    ensures AuditsWith(run, ps, text)[i] == AuditWith(run, ps[i], RunChain(run, ps[..i], text))
    decreases |ps|
  {
    var prefix := ps[..|ps| - 1];
    AuditsWithLength(run, prefix, text);
    if i < |ps| - 1 {
      AuditsWithAt(run, prefix, text, i);
      assert prefix[..i] == ps[..i] && prefix[i] == ps[i];
    } else {
      assert prefix == ps[..i];
    }
  }

  lemma {:induction false} RunChainAppend(run: (Processor, string) -> string, ps1: seq<Processor>, ps2: seq<Processor>, text: string)
    ensures RunChain(run, ps1 + ps2, text) == RunChain(run, ps2, RunChain(run, ps1, text))
    decreases |ps2|
  {
    if ps2 == [] {
      assert ps1 + ps2 == ps1;
    } else {
      var all := ps1 + ps2;
      assert all[..|all| - 1] == ps1 + ps2[..|ps2| - 1];
      RunChainAppend(run, ps1, ps2[..|ps2| - 1], text);
    }
  }

  /**
   * The chain `ps` applied left to right: `[A, B]` gives `B(A(text))`. The
   * empty chain leaves the text as it is.
   */
  function Pipeline(ps: seq<Processor>, text: string, source: Option<string>): (r: string)
    ensures ps == [] ==> r == text
  {
    RunChain(Stage(source), ps, text)
  }

  /** A chain of cleaners only never lengthens the text. */
  lemma {:induction false} CleanersNeverLengthen(ps: seq<Processor>, text: string, source: Option<string>)
    requires forall i :: 0 <= i < |ps| ==> !ps[i].Html?
    ensures |Pipeline(ps, text, source)| <= |text|
    decreases |ps|
  {
    if ps != [] {
      var prefix := ps[..|ps| - 1];
      CleanersNeverLengthen(prefix, text, source);
      assert Pipeline(ps, text, source) == ProcessText(ps[|ps| - 1], Pipeline(prefix, text, source), source);
    }
  }

  /**
   * The audit of running `p` on `input`: it starts at the input's size, ends at
   * the output's size and its savings are those of its two sizes.
   */
  function AuditOf(p: Processor, input: string, source: Option<string>): (a: StageAudit)
    ensures a.processorName == Name(p) && a.tokensUsed == 0
    ensures a.startTextSize == |input| && a.endTextSize == |ProcessText(p, input, source)|
    ensures a.savingsPercentage == CalculateSavings(a.startTextSize, a.endTextSize)
  {
    AuditWith(Stage(source), p, input)
  }

  /** A cleaner's stage never grows the text and its savings are never negative. */
  lemma CleanerAuditNonNegative(p: Processor, input: string, source: Option<string>)
    requires !p.Html?
    ensures AuditOf(p, input, source).endTextSize <= AuditOf(p, input, source).startTextSize
    ensures AuditOf(p, input, source).savingsPercentage >= 0.0
  {
    CleanerSavingsNonNegative(p, input, source);
  }

  /** The audits the chain `ps` records, one per processor, in processor order. */
  function StageAudits(ps: seq<Processor>, text: string, source: Option<string>): seq<StageAudit>
  {
    AuditsWith(Stage(source), ps, text)
  }

  /** One audit per processor. */
  lemma StageAuditsLength(ps: seq<Processor>, text: string, source: Option<string>)
    ensures |StageAudits(ps, text, source)| == |ps|
  {
    AuditsWithLength(Stage(source), ps, text);
  }

  /** Audit `i` is the audit of processor `i` run on the output of the processors before it. */
  lemma StageAuditAt(ps: seq<Processor>, text: string, source: Option<string>, i: nat)
    requires i < |ps|
    ensures |StageAudits(ps, text, source)| == |ps|
    ensures StageAudits(ps, text, source)[i] == AuditOf(ps[i], Pipeline(ps[..i], text, source), source)
  {
    AuditsWithAt(Stage(source), ps, text, i);
  }

  /**
   * Running processor `i` after those of `ps[..i]` keeps their audits and
   * appends its own, taken on their output.
   */
  lemma StageAuditsStep(ps: seq<Processor>, text: string, source: Option<string>, i: nat)
    requires i < |ps|
    ensures StageAudits(ps[..i + 1], text, source)
         == StageAudits(ps[..i], text, source) + [AuditOf(ps[i], Pipeline(ps[..i], text, source), source)]
  {
    AuditsWithStep(Stage(source), ps, text, i);
  }

  /** Running the processors of `ps[..i + 1]` is running processor `i` after those of `ps[..i]`. */
  lemma PipelineStep(ps: seq<Processor>, text: string, source: Option<string>, i: nat)
    requires i < |ps|
    ensures Pipeline(ps[..i + 1], text, source) == ProcessText(ps[i], Pipeline(ps[..i], text, source), source)
  {
    RunChainStep(Stage(source), ps, text, i);
  }

  /** Each audit carries its processor's class name, zero tokens and the savings of its own sizes. */
  lemma StageAuditsRecords(ps: seq<Processor>, text: string, source: Option<string>)
    ensures var audits := StageAudits(ps, text, source);
      && |audits| == |ps|
      && forall i :: 0 <= i < |ps| ==>
           && audits[i].processorName == Name(ps[i])
           && audits[i].tokensUsed == 0
           && audits[i].savingsPercentage == CalculateSavings(audits[i].startTextSize, audits[i].endTextSize)
  {
    var audits := StageAudits(ps, text, source);
    if ps != [] {
      StageAuditAt(ps, text, source, 0);
    }
    forall i | 0 <= i < |ps|
      ensures audits[i].processorName == Name(ps[i]) && audits[i].tokensUsed == 0
      ensures audits[i].savingsPercentage == CalculateSavings(audits[i].startTextSize, audits[i].endTextSize)
    {
      StageAuditAt(ps, text, source, i);
    }
  }

  /** Audit `i` ends at the length audit `i + 1` starts from. */
  lemma StageAuditLink(ps: seq<Processor>, text: string, source: Option<string>, i: nat)
    requires i + 1 < |ps|
    ensures |StageAudits(ps, text, source)| == |ps|
    ensures StageAudits(ps, text, source)[i].endTextSize == StageAudits(ps, text, source)[i + 1].startTextSize
  {
    StageAuditAt(ps, text, source, i);
    StageAuditAt(ps, text, source, i + 1);
    PipelineStep(ps, text, source, i);
  }

  /** Each audit ends where the next one starts. */
  lemma StageAuditsChain(ps: seq<Processor>, text: string, source: Option<string>)
    ensures var audits := StageAudits(ps, text, source);
      && |audits| == |ps|
      && forall i :: 0 <= i < |ps| - 1 ==> audits[i].endTextSize == audits[i + 1].startTextSize
  {
    if ps != [] {
      StageAuditAt(ps, text, source, 0);
    }
    forall i | 0 <= i < |ps| - 1
      ensures StageAudits(ps, text, source)[i].endTextSize == StageAudits(ps, text, source)[i + 1].startTextSize
    {
      StageAuditLink(ps, text, source, i);
    }
  }

  /** The first audit starts at the input length and the last ends at the length of the result. */
  lemma StageAuditsEnds(ps: seq<Processor>, text: string, source: Option<string>)
    requires ps != []
    ensures var audits := StageAudits(ps, text, source);
      && |audits| == |ps|
      && audits[0].startTextSize == |text|
      && audits[|ps| - 1].endTextSize == |Pipeline(ps, text, source)|
  {
    StageAuditAt(ps, text, source, 0);
    assert ps[..0] == [];
    StageAuditAt(ps, text, source, |ps| - 1);
  }

  /** Chains compose: running `ps1 + ps2` is running `ps2` on the result of `ps1`. */
  lemma PipelineAppend(ps1: seq<Processor>, ps2: seq<Processor>, text: string, source: Option<string>)
    ensures Pipeline(ps1 + ps2, text, source) == Pipeline(ps2, Pipeline(ps1, text, source), source)
  {
    RunChainAppend(Stage(source), ps1, ps2, text);
  }

  /** Two processors: `[a, b]` yields `b(a(text))`. */
  lemma PipelinePair(a: Processor, b: Processor, text: string, source: Option<string>)
    ensures Pipeline([a, b], text, source) == ProcessText(b, ProcessText(a, text, source), source)
  {
    var ps := [a, b];
    assert ps[..0] == [] && ps[..1] == [a] && ps[..2] == ps;
    PipelineStep(ps, text, source, 0);
    var mid := Pipeline([a], text, source);
    assert mid == ProcessText(a, text, source);
    PipelineStep(ps, text, source, 1);
  }

  /**
   * The chain the application wires up, an `HtmlProcessor` followed by a
   * `NewsletterCleaner()` with its default flags, returns the cleaned
   * extracted text, stripped and with every line stripped.
   */
  lemma DefaultChain(extract: string -> string, patterns: Patterns, text: string, source: Option<string>)
    ensures var out := Pipeline([Html(extract), Newsletter(patterns)], text, source);
      && out == Clean(true, true, patterns, extract(text))
      && IsStripped(out) && LinesStripped(out)
      && |out| <= |extract(text)|
  {
    PipelinePair(Html(extract), Newsletter(patterns), text, source);
    NewsletterLinesStripped(Newsletter(patterns), extract(text), source);
  }

  /** The chain's result does not depend on the source label it is handed. */
  lemma {:induction false} PipelineIgnoresSource(ps: seq<Processor>, text: string, s1: Option<string>, s2: Option<string>)
    ensures Pipeline(ps, text, s1) == Pipeline(ps, text, s2)
    decreases |ps|
  {
    if ps != [] {
      var prefix := ps[..|ps| - 1];
      PipelineIgnoresSource(prefix, text, s1, s2);
      var mid := Pipeline(prefix, text, s1);
      assert Pipeline(ps, text, s1) == ProcessText(ps[|ps| - 1], mid, s1);
      assert Pipeline(ps, text, s2) == ProcessText(ps[|ps| - 1], mid, s2);
    }
  }

  /** `TextProcessorWrapper`: an ordered list of processors fixed at construction. */
  class TextProcessorWrapper {
    const processors: seq<Processor>

    constructor (processors: seq<Processor>)
      ensures this.processors == processors
    {
      this.processors := processors;
    }

    /**
     * `process(text, source)`: the text after every processor, and one audit per
     * processor; an empty list returns the text unchanged and no audits.
     */
    method Process(text: string, source: Option<string>) returns (output: string, audits: seq<StageAudit>)
      ensures output == Pipeline(processors, text, source)
      ensures audits == StageAudits(processors, text, source)
      ensures processors == [] ==> output == text && audits == []
    {
      audits := [];
      var input := text;
      var i := 0;
      while i < |processors|
        invariant 0 <= i <= |processors|
        invariant input == Pipeline(processors[..i], text, source)
        invariant audits == StageAudits(processors[..i], text, source)
      {
        PipelineStep(processors, text, source, i);
        StageAuditsStep(processors, text, source, i);
        var processor := processors[i];
        var startSize := |input|;
        var out := ProcessText(processor, input, source);
        var endSize := |out|;
        var audit := StageAudit(Name(processor), startSize, endSize, CalculateSavings(startSize, endSize), 0);
        assert audit == AuditOf(processor, input, source);
        audits := audits + [audit];
        input := out;
        i := i + 1;
      }
      assert processors[..|processors|] == processors;
      output := input;
    }
  }
}
