/**
 * `MailProcessor` and its records: the sender-address extraction, the
 * allow-list filter, the date window, the per-mail loop (text chain, concept
 * extraction, graph merge, mail audit, blob upload) and the single run audit.
 *
 * The collaborators are parameters of the processor: the mail fetcher is two
 * functions (the basic listing and the full mail by id), the concept
 * extractor is a function of the query and the prompt, and each of them
 * either answers or fails with a message, a failure being a raised exception.
 * The configuration store is a map from item id to item; the blob store and
 * the audit store are the lists of what was uploaded and created.
 */
module MailProcessing {
  import opened Wrappers
  import opened Seqs
  import opened PyStr
  import opened Util
  import opened TextProcessor
  import opened KnowledgeDb

  /** A `datetime`, as an instant on a line. */
  type Timestamp = int

  /** `Mail` as fetched; the attachment list is not modelled. */
  datatype Mail = Mail(
    id: string,
    date: Timestamp,
    subject: string,
    sender: string,
    recipients: seq<string>,
    body: string)

  /** `MeteredKnowledgeConceptResponse`: the extracted concepts with the token metering. */
  datatype LlmResponse = LlmResponse(
    concepts: seq<KnowledgeConcept>,
    totalTokens: int,
    promptTokens: int,
    completionTokens: int,
    cachedTokens: int,
    model: string,
    provider: string)

  /** `ProcessedMail`, without the wall-clock `processed_at`. */
  datatype ProcessedMail = ProcessedMail(
    mail: Mail,
    tokensUsed: int,
    tokensCached: int,
    model: string,
    provider: string,
    conceptCount: nat,
    keywordCount: nat,
    urlCount: nat,
    concepts: seq<KnowledgeConcept>)

  /** `ProcessingMailAudit`, without its start and end times and duration. */
  datatype MailAudit = MailAudit(
    mailIdentifier: string,
    mailSource: string,
    originalBodySize: nat,
    processedBodySize: nat,
    savingsPercentage: real,
    tokensUsed: int,
    tokensCached: int,
    model: string,
    provider: string,
    conceptCount: nat,
    keywordCount: nat,
    urlCount: nat,
    processingSteps: seq<StageAudit>,
    concepts: seq<KnowledgeConcept>)

  /**
   * The run record, the `ProcessingAudit` redefined in the mail module; its
   * generated id and its start and end times are not modelled.
   */
  datatype RunAudit = RunAudit(
    totalEmailsFetched: nat,
    totalEmailsProcessed: nat,
    mailStartWindow: Option<Timestamp>,
    mailEndWindow: Option<Timestamp>,
    processedMails: seq<MailAudit>)

  /** `RepoBlob`; the JSON serialisation of the processed mail is kept as the value itself. */
  datatype Blob = Blob(name: string, container: string, size: nat, data: ProcessedMail)

  /** A configuration item: the optional `mails`, `prompt` and `topic` entries the processor reads. */
  datatype ConfigItem = ConfigItem(mails: Option<seq<string>>, prompt: Option<string>, topic: Option<seq<string>>)

  /** The settings `process_emails` reads from the configuration store. */
  datatype RunConfig = RunConfig(approvedMails: seq<string>, llmPrompt: string, topicPrompt: string, topics: seq<string>)

  /** Why a run stopped: an item missing from the configuration store, a collaborator that raised, or a mail source that is not a string. */
  datatype Failure =
    | MissingConfigItem(itemId: string)
    | CollaboratorFailed(message: string)
    | MissingMailSource(sender: string)

  // ---------------------------------------------------------------------------
  // Sender addresses

  /**
   * `re.search(r"<([^>]+)>", sender)` matches at `i` with the closing bracket
   * at `j`: a `<`, at least one character other than `>`, then `>`.
   */
  predicate AngleMatch(s: string, i: int, j: int) {
    0 <= i && i + 1 < j < |s| && s[i] == '<' && s[j] == '>' && forall k :: i < k < j ==> s[k] != '>'
  }

  /** The index of the first `>` at or after `k`, or `|s|` when there is none. */
  function FirstClose(s: string, k: nat): (j: nat)
    requires k <= |s|
    ensures k <= j <= |s|
    ensures j < |s| ==> s[j] == '>'
    ensures forall m :: k <= m < j ==> s[m] != '>'
    decreases |s| - k
  {
    if k == |s| || s[k] == '>' then k else FirstClose(s, k + 1)
  }

  /** A match at `i` closes at the first `>` after its `<`. */
  lemma AngleMatchCloses(s: string, i: int, j: int)
    requires AngleMatch(s, i, j)
    ensures j == FirstClose(s, i + 1)
  {
  }

  /** The regular-expression search from position `from`: the leftmost match at or after it. */
  function SearchAngle(s: string, from: nat): (m: Option<(nat, nat)>)
    requires from <= |s|
    ensures m.Some? ==> from <= m.value.0 && AngleMatch(s, m.value.0, m.value.1)
    ensures m.Some? ==> forall i, j :: from <= i < m.value.0 ==> !AngleMatch(s, i, j)
    ensures m.None? ==> forall i, j :: from <= i ==> !AngleMatch(s, i, j)
    decreases |s| - from
  {
    if from == |s| then None
    else
      var j := FirstClose(s, from + 1);
      if s[from] == '<' && from + 1 < j < |s| then Some((from, j))
      else
        var m := SearchAngle(s, from + 1);
        forall j' | AngleMatch(s, from, j')
          ensures j' == j
        {
          AngleMatchCloses(s, from, j');
        }
        m
  }

  /**
   * `_extract_email_from_sender`: the text between the brackets of the
   * leftmost `<...>` match; without a match, the stripped sender when it
   * holds an `@`, and `None` otherwise.
   */
  function ExtractEmailFromSender(sender: string): (r: Option<string>)
    ensures forall i, j :: AngleMatch(sender, i, j) && (forall i', j' :: i' < i ==> !AngleMatch(sender, i', j')) ==>
      r == Some(sender[i + 1..j])
    ensures (forall i, j :: !AngleMatch(sender, i, j)) ==>
      r == (if '@' in sender then Some(Strip(sender)) else None)
    ensures '<' !in sender && '@' !in sender ==> r == None
  {
    var m := SearchAngle(sender, 0);
    if m.Some? then
      var i, j := m.value.0, m.value.1;
      assert forall i', j' :: AngleMatch(sender, i', j') && i' == i ==> j' == j;
      Some(sender[i + 1..j])
    else if '@' in sender then Some(Strip(sender))
    else None
  }

  /** Without a `<` there is no match, and only the `@` test decides. */
  lemma WithoutOpenBracket(s: string)
    requires '<' !in s
    ensures ExtractEmailFromSender(s) == if '@' in s then Some(Strip(s)) else None
  {
    forall i | 0 <= i < |s|
      ensures s[i] != '<'
    {
      assert s[i] in s;
    }
  }

  /** `"Alice <a@x.com>"` gives `"a@x.com"`. */
  lemma ExtractFromDisplayName()
    ensures ExtractEmailFromSender("Alice <a@x.com>") == Some("a@x.com")
  {
    var s := "Alice <a@x.com>";
    assert AngleMatch(s, 6, 14);
    forall i', j' | i' < 6
      ensures !AngleMatch(s, i', j')
    {
    }
    assert s[7..14] == "a@x.com";
  }

  /** A bare address is returned stripped. */
  lemma ExtractBareAddress()
    ensures ExtractEmailFromSender(" b@y.com") == Some("b@y.com")
  {
    var s := " b@y.com";
    assert |s| == 8;
    assert forall i | 0 <= i < |s| :: s[i] != '<';
    assert '<' !in s;
    assert '@' in s by {
      assert s[2] == '@';
    }
    WithoutOpenBracket(s);
    StripLeadingSpace(s);
  }

  /** Stripping removes the leading space of `" b@y.com"`. */
  lemma StripLeadingSpace(s: string)
    requires s == " b@y.com"
    ensures Strip(s) == "b@y.com"
  {
    var t := s[1..];
    assert t == "b@y.com";
    assert IsSpace(s[0]);
    StripSkipsSpace(s);
    assert IsStripped(t) by {
      assert t[0] == 'b' && t[|t| - 1] == 'm';
    }
  }

  /** A sender with neither brackets nor `@` has no address. */
  lemma ExtractWithoutAddress()
    ensures ExtractEmailFromSender("bad-format") == None
  {
    var s := "bad-format";
    assert |s| == 10;
    assert forall i | 0 <= i < |s| :: s[i] != '<' && s[i] != '@';
    assert '<' !in s && '@' !in s;
    WithoutOpenBracket(s);
  }

  /** Empty brackets do not match, so `"<>x@y"` falls back to the stripped sender. */
  lemma ExtractEmptyBrackets()
    ensures ExtractEmailFromSender("<>x@y") == Some("<>x@y")
  {
    var s := "<>x@y";
    assert IsStripped(s) by {
      assert s[0] == '<' && s[|s| - 1] == 'y';
    }
    assert '@' in s by {
      assert s[3] == '@';
    }
    forall i, j | 0 <= i && i + 1 < j < |s|
      ensures !AngleMatch(s, i, j)
    {
      assert s[i] != '<' || s[i + 1] == '>';
    }
  }

  // ---------------------------------------------------------------------------
  // Filter and window

  /** The sender's extracted address is on the allow-list; a `None` address never is. */
  predicate Approved(m: Mail, approvedMails: seq<string>): (b: bool)
    ensures b ==> '<' in m.sender || '@' in m.sender
    ensures approvedMails == [] ==> !b
  {
    var address := ExtractEmailFromSender(m.sender);
    address.Some? && address.value in approvedMails
  }

  /** The list comprehension selecting the mails to process. */
  function MailsToProcess(emails: seq<Mail>, approvedMails: seq<string>): (r: seq<Mail>)
    ensures |r| <= |emails|
    ensures forall m :: m in r ==> m in emails && Approved(m, approvedMails)
    decreases |emails|
  {
    if emails == [] then []
    else
      var rest := MailsToProcess(emails[1..], approvedMails);
      if Approved(emails[0], approvedMails) then [emails[0]] + rest else rest
  }

  /**
   * The mails to process are exactly the approved fetched mails, in fetch
   * order, each as often as it was fetched.
   */
  lemma {:induction false} MailsToProcessExactly(emails: seq<Mail>, approvedMails: seq<string>)
    ensures IsSubsequence(MailsToProcess(emails, approvedMails), emails)
    ensures forall m :: multiset(MailsToProcess(emails, approvedMails))[m] ==
                         if Approved(m, approvedMails) then multiset(emails)[m] else 0
    decreases |emails|
  {
    if emails != [] {
      MailsToProcessExactly(emails[1..], approvedMails);
      var rest := MailsToProcess(emails[1..], approvedMails);
      assert emails == [emails[0]] + emails[1..];
      if Approved(emails[0], approvedMails) {
        assert ([emails[0]] + rest)[1..] == rest;
      } else {
        SubsequenceCons(rest, emails);
      }
    }
  }

  /** An empty allow-list selects nothing. */
  lemma {:induction false} EmptyAllowListSelectsNothing(emails: seq<Mail>)
    ensures MailsToProcess(emails, []) == []
    decreases |emails|
  {
    if emails != [] {
      EmptyAllowListSelectsNothing(emails[1..]);
    }
  }

  /** `min(timestamps)`. */
  function Earliest(ds: seq<Timestamp>): (d: Timestamp)
    requires ds != []
    ensures d in ds && forall x :: x in ds ==> d <= x
    decreases |ds|
  {
    if |ds| == 1 then ds[0]
    else
      var rest := Earliest(ds[1..]);
      assert forall x :: x in ds ==> x == ds[0] || x in ds[1..];
      if ds[0] <= rest then ds[0] else rest
  }

  /** `max(timestamps)`. */
  function Latest(ds: seq<Timestamp>): (d: Timestamp)
    requires ds != []
    ensures d in ds && forall x :: x in ds ==> x <= d
    decreases |ds|
  {
    if |ds| == 1 then ds[0]
    else
      var rest := Latest(ds[1..]);
      assert forall x :: x in ds ==> x == ds[0] || x in ds[1..];
      if ds[0] >= rest then ds[0] else rest
  }

  /** The dates of the mails, in order. */
  function Dates(mails: seq<Mail>): (ds: seq<Timestamp>)
    ensures |ds| == |mails| && forall i :: 0 <= i < |mails| ==> ds[i] == mails[i].date
  {
    seq(|mails|, i requires 0 <= i < |mails| => mails[i].date)
  }

  /**
   * The run's mail window: the earliest and the latest date of the mails to
   * process, both `None` when there are none.
   */
  function Window(mails: seq<Mail>): (w: (Option<Timestamp>, Option<Timestamp>))
    ensures w.0.None? <==> mails == []
    ensures w.1.None? <==> mails == []
    ensures w.0.Some? ==> exists i :: 0 <= i < |mails| && mails[i].date == w.0.value
    ensures w.1.Some? ==> exists i :: 0 <= i < |mails| && mails[i].date == w.1.value
    ensures w.0.Some? ==> forall i :: 0 <= i < |mails| ==> w.0.value <= mails[i].date <= w.1.value
  {
    var ds := Dates(mails);
    if ds == [] then (None, None)
    else
      var lo, hi := Earliest(ds), Latest(ds);
      assert forall i :: 0 <= i < |mails| ==> mails[i].date in ds;
      assert exists i :: 0 <= i < |ds| && ds[i] == lo;
      assert exists i :: 0 <= i < |ds| && ds[i] == hi;
      (Some(lo), Some(hi))
  }

  /** The window never runs backwards. */
  lemma WindowOrdered(mails: seq<Mail>)
    ensures var w := Window(mails); w.0.Some? ==> w.0.value <= w.1.value
  {
    var w := Window(mails);
    if w.0.Some? {
      assert mails[0].date in Dates(mails);
      assert w.0.value <= mails[0].date <= w.1.value;
    }
  }

  // ---------------------------------------------------------------------------
  // Configuration and prompt

  /** `item.get(key, default)` for the three keys the processor reads. */
  function MailsOr(item: ConfigItem): seq<string> { if item.mails.Some? then item.mails.value else [] }
  function PromptOr(item: ConfigItem): string { if item.prompt.Some? then item.prompt.value else "" }
  function TopicOr(item: ConfigItem): seq<string> { if item.topic.Some? then item.topic.value else [] }

  /**
   * The configuration reads at the start of `process_emails`: items
   * `approved_mails`, `llm_prompt` and `concept_topic`, in that order; a
   * missing item raises, a missing entry takes its default.
   */
  function LoadConfig(config: map<string, ConfigItem>): (r: Result<RunConfig, Failure>)
    ensures r.Ok? <==> "approved_mails" in config && "llm_prompt" in config && "concept_topic" in config
    ensures r.Err? ==> r.error.MissingConfigItem? && r.error.itemId !in config
    ensures r.Ok? ==> r.value.approvedMails == MailsOr(config["approved_mails"])
    ensures r.Ok? ==> r.value.llmPrompt == PromptOr(config["llm_prompt"])
    ensures r.Ok? ==> r.value.topicPrompt == PromptOr(config["concept_topic"]) && r.value.topics == TopicOr(config["concept_topic"])
  {
    if "approved_mails" !in config then Err(MissingConfigItem("approved_mails"))
    else if "llm_prompt" !in config then Err(MissingConfigItem("llm_prompt"))
    else if "concept_topic" !in config then Err(MissingConfigItem("concept_topic"))
    else
      var topic := config["concept_topic"];
      Ok(RunConfig(MailsOr(config["approved_mails"]), PromptOr(config["llm_prompt"]), PromptOr(topic), TopicOr(topic)))
  }

  /**
   * The entries of Python's `str` of a list of strings, each in single quotes,
   * comma separated: nothing for no entries, otherwise quoted at both ends,
   * with the first entry right after the opening quote.
   */
  function ReprItems(items: seq<string>): (r: string)
    ensures items == [] <==> r == []
    ensures items != [] ==> |r| >= |items[0]| + 2 && r[0] == '\'' && r[|r| - 1] == '\''
    ensures items != [] ==> r[1..1 + |items[0]|] == items[0]
    ensures |r| >= 2 * |items|
    decreases |items|
  {
    if items == [] then ""
    else if |items| == 1 then "'" + items[0] + "'"
    else "'" + items[0] + "', " + ReprItems(items[1..])
  }

  /**
   * The prompt handed to the extractor: `f"{llm_prompt}\n{topic_prompt} {topic_list}"`.
   * The configured LLM prompt, a newline, the topic prompt, a space and the
   * rendered topic list follow one another, so each part can be read back.
   */
  function CombinedPrompt(c: RunConfig): (p: string)
    ensures |p| >= |c.llmPrompt| + |c.topicPrompt| + 4
    ensures p[..|c.llmPrompt|] == c.llmPrompt && p[|c.llmPrompt|] == '\n'
    ensures p[|c.llmPrompt| + 1..|c.llmPrompt| + 1 + |c.topicPrompt|] == c.topicPrompt
    ensures p[|c.llmPrompt| + 1 + |c.topicPrompt|..] == " [" + ReprItems(c.topics) + "]"
  {
    c.llmPrompt + "\n" + c.topicPrompt + " " + "[" + ReprItems(c.topics) + "]"
  }

  /**
   * Two configurations give the same prompt exactly when their LLM prompts,
   * topic prompts and rendered topic lists agree, for prompts of the same lengths.
   */
  lemma CombinedPromptDetermines(c1: RunConfig, c2: RunConfig)
    requires |c1.llmPrompt| == |c2.llmPrompt| && |c1.topicPrompt| == |c2.topicPrompt|
    ensures CombinedPrompt(c1) == CombinedPrompt(c2) <==>
      c1.llmPrompt == c2.llmPrompt && c1.topicPrompt == c2.topicPrompt && ReprItems(c1.topics) == ReprItems(c2.topics)
  {
    var p1, p2 := CombinedPrompt(c1), CombinedPrompt(c2);
    var n, m := |c1.llmPrompt|, |c1.topicPrompt|;
    if p1 == p2 {
      assert " [" + ReprItems(c1.topics) + "]" == " [" + ReprItems(c2.topics) + "]";
      var r1, r2 := ReprItems(c1.topics), ReprItems(c2.topics);
      assert r1 == (" [" + r1 + "]")[2..|r1| + 2];
      assert r2 == (" [" + r2 + "]")[2..|r2| + 2];
    }
  }

  // ---------------------------------------------------------------------------
  // The processor

  /** What `process_email` returns: the processed mail and the audits of the text chain. */
  datatype EmailResult = EmailResult(processed: ProcessedMail, steps: seq<StageAudit>)

  /** The part of one loop round that the graph sees, and how the round ended. */
  datatype StepResult = StepResult(concepts: seq<KnowledgeConcept>, outcome: Result<(MailAudit, Blob), Failure>)

  /** The loop's state after some rounds: the failure that stopped it, if any, and what it produced. */
  datatype Progress = Progress(
    failure: Option<Failure>,
    audits: seq<MailAudit>,
    blobs: seq<Blob>,
    concepts: seq<KnowledgeConcept>)

  /** `audits` and `blobs` pair up and entry `i` of each is what `step` produced for mail `i`. */
  ghost predicate RoundsMatch(mails: seq<Mail>, step: Mail -> Result<(MailAudit, Blob), Failure>,
                              audits: seq<MailAudit>, blobs: seq<Blob>) {
    && |blobs| == |audits| <= |mails|
    && forall i :: 0 <= i < |audits| ==> step(mails[i]) == Ok((audits[i], blobs[i]))
  }

  /** Rounds matched against a prefix of the mails stay matched against all of them. */
  lemma RoundsKeep(mails: seq<Mail>, step: Mail -> Result<(MailAudit, Blob), Failure>,
                   audits: seq<MailAudit>, blobs: seq<Blob>)
    requires mails != []
    requires RoundsMatch(mails[..|mails| - 1], step, audits, blobs)
    ensures RoundsMatch(mails, step, audits, blobs)
  {
    var prefix := mails[..|mails| - 1];
    forall i | 0 <= i < |audits|
      ensures step(mails[i]) == Ok((audits[i], blobs[i]))
    {
      assert mails[i] == prefix[i];
    }
  }

  /** A successful round for the last mail extends rounds matched against all the mails before it. */
  lemma RoundsAppend(mails: seq<Mail>, step: Mail -> Result<(MailAudit, Blob), Failure>,
                     audits: seq<MailAudit>, blobs: seq<Blob>, audit: MailAudit, blob: Blob)
    requires mails != []
    requires RoundsMatch(mails[..|mails| - 1], step, audits, blobs)
    requires |audits| == |mails| - 1
    requires step(mails[|mails| - 1]) == Ok((audit, blob))
    ensures RoundsMatch(mails, step, audits + [audit], blobs + [blob])
  {
    RoundsKeep(mails, step, audits, blobs);
  }

  /** What a whole run produces: the return value or the exception, the uploads, the merged concepts and the run record. */
  datatype RunOutcome = RunOutcome(
    result: Result<nat, Failure>,
    blobs: seq<Blob>,
    concepts: seq<KnowledgeConcept>,
    runAudit: Option<RunAudit>)

  /**
   * `MailProcessor` with its collaborators. The graph is shared with the
   * caller; the uploads and the audit items are what this processor wrote
   * to the blob store and the audit store.
   */
  class MailProcessor {
    const config: map<string, ConfigItem>
    const fetchBasicEmails: int -> Result<seq<Mail>, string>
    const fetchFullEmailById: string -> Result<Mail, string>
    const extractKnowledge: (string, string) -> Result<LlmResponse, string>
    /** `Mail.get_identifier`, which is not part of this model. */
    const identifier: Mail -> string
    const blobContainer: string
    const wrapper: TextProcessorWrapper
    const graph: KnowledgeDatabase
    /** The blobs uploaded to the blob store, oldest first. */
    var uploads: seq<Blob>
    /** The items created in the audit store, oldest first. */
    var auditItems: seq<RunAudit>

    constructor (
      config: map<string, ConfigItem>,
      fetchBasicEmails: int -> Result<seq<Mail>, string>,
      fetchFullEmailById: string -> Result<Mail, string>,
      extractKnowledge: (string, string) -> Result<LlmResponse, string>,
      identifier: Mail -> string,
      blobContainer: string,
      wrapper: TextProcessorWrapper,
      graph: KnowledgeDatabase)
      ensures this.config == config && this.fetchBasicEmails == fetchBasicEmails
      ensures this.fetchFullEmailById == fetchFullEmailById && this.extractKnowledge == extractKnowledge
      ensures this.identifier == identifier && this.blobContainer == blobContainer
      ensures this.wrapper == wrapper && this.graph == graph
      ensures uploads == [] && auditItems == []
    {
      this.config := config;
      this.fetchBasicEmails := fetchBasicEmails;
      this.fetchFullEmailById := fetchFullEmailById;
      this.extractKnowledge := extractKnowledge;
      this.identifier := identifier;
      this.blobContainer := blobContainer;
      this.wrapper := wrapper;
      this.graph := graph;
      uploads := [];
      auditItems := [];
    }

    /**
     * `process_email` as a value: the body goes through the text chain with
     * the sender's address as source, the mail's body is replaced by the
     * result, the extractor is asked about the cleaned text, and the counts
     * are taken over the concepts it returns.
     */
    function ProcessEmailSpec(email: Mail, prompt: string): (r: Result<EmailResult, Failure>)
      ensures r.Ok? ==> r.value.processed.mail.(body := email.body) == email
      ensures r.Ok? ==> |r.value.steps| == |wrapper.processors|
    {
      var source := ExtractEmailFromSender(email.sender);
      var cleaned := Pipeline(wrapper.processors, email.body, source);
      var updated := email.(body := cleaned);
      var response := extractKnowledge(cleaned, prompt);
      if response.Err? then Err(CollaboratorFailed(response.error))
      else
        var metered := response.value;
        StageAuditsLength(wrapper.processors, email.body, source);
        Ok(EmailResult(
          ProcessedMail(updated, metered.totalTokens, metered.cachedTokens, metered.model, metered.provider,
                        |metered.concepts|, KeywordCount(metered.concepts), UrlCount(metered.concepts),
                        metered.concepts),
          StageAudits(wrapper.processors, email.body, source)))
    }

    /**
     * A processed mail carries the mail with its body replaced by the cleaned
     * text and every other field kept, the extractor's concepts, their number
     * and their keyword and URL totals, and one stage audit per processor.
     */
    lemma ProcessEmailShape(email: Mail, prompt: string)
      ensures var r := ProcessEmailSpec(email, prompt);
        var source := ExtractEmailFromSender(email.sender);
        var cleaned := Pipeline(wrapper.processors, email.body, source);
        r.Ok? <==> extractKnowledge(cleaned, prompt).Ok?
      ensures var r := ProcessEmailSpec(email, prompt);
        var cleaned := Pipeline(wrapper.processors, email.body, ExtractEmailFromSender(email.sender));
        r.Ok? ==>
          var pm := r.value.processed;
          && pm.mail.body == cleaned
          && pm.mail.(body := email.body) == email
          && pm.concepts == extractKnowledge(cleaned, prompt).value.concepts
          && pm.conceptCount == |pm.concepts|
          && pm.keywordCount == KeywordCount(pm.concepts)
          && pm.urlCount == UrlCount(pm.concepts)
          && pm.keywordCount + pm.urlCount == |EdgesOf(pm.concepts)|
          && |r.value.steps| == |wrapper.processors|
    {
      var r := ProcessEmailSpec(email, prompt);
      if r.Ok? {
        StageAuditsRecords(wrapper.processors, email.body, ExtractEmailFromSender(email.sender));
      }
    }

    /**
     * One round of the loop for `basic`: fetch the full mail, process it
     * (which merges its concepts into the graph), build its audit record,
     * whose `mail_source` must be a string, and name its blob after the
     * processed mail's identifier.
     */
    function MailStep(basic: Mail, prompt: string): (st: StepResult)
      ensures st.outcome.Ok? ==> st.outcome.value.1.name == st.outcome.value.0.mailIdentifier + ".json"
      ensures st.outcome.Ok? ==> st.outcome.value.0.concepts == st.concepts
    {
      var full := fetchFullEmailById(basic.id);
      if full.Err? then StepResult([], Err(CollaboratorFailed(full.error)))
      else
        var email := full.value;
        var processed := ProcessEmailSpec(email, prompt);
        if processed.Err? then StepResult([], Err(processed.error))
        else
          var pm := processed.value.processed;
          var source := ExtractEmailFromSender(email.sender);
          if source.None? then StepResult(pm.concepts, Err(MissingMailSource(email.sender)))
          else
            var size := |pm.mail.body|;
            var audit := MailAudit(identifier(pm.mail), source.value, |email.body|, size,
                                   CalculateSavings(|email.body|, size), pm.tokensUsed, pm.tokensCached,
                                   pm.model, pm.provider, pm.conceptCount, pm.keywordCount, pm.urlCount,
                                   processed.value.steps, pm.concepts);
            StepResult(pm.concepts, Ok((audit, Blob(identifier(pm.mail) + ".json", blobContainer, size, pm))))
    }

    /**
     * A completed round's audit and blob agree: the blob is named after the
     * audited identifier with `.json`, its size is the processed body size,
     * the savings are those of the two body sizes, the counts are those of
     * the concepts, which are the ones merged into the graph, and the source
     * is the full mail's sender address.
     */
    lemma MailStepShape(basic: Mail, prompt: string)
      ensures var st := MailStep(basic, prompt);
        st.outcome.Ok? ==>
          var audit, blob := st.outcome.value.0, st.outcome.value.1;
          var full := fetchFullEmailById(basic.id);
          && full.Ok?
          && blob.name == audit.mailIdentifier + ".json"
          && blob.container == blobContainer
          && blob.size == audit.processedBodySize == |blob.data.mail.body|
          && audit.mailIdentifier == identifier(blob.data.mail)
          && Some(audit.mailSource) == ExtractEmailFromSender(full.value.sender)
          && audit.originalBodySize == |full.value.body|
          && audit.savingsPercentage == CalculateSavings(audit.originalBodySize, audit.processedBodySize)
          && audit.concepts == st.concepts
          && audit.conceptCount == |audit.concepts|
          && audit.keywordCount == KeywordCount(audit.concepts)
          && audit.urlCount == UrlCount(audit.concepts)
          && |audit.processingSteps| == |wrapper.processors|
      ensures var st := MailStep(basic, prompt);
        st.outcome.Err? && st.outcome.error.MissingMailSource? ==>
          fetchFullEmailById(basic.id).Ok? && ExtractEmailFromSender(fetchFullEmailById(basic.id).value.sender).None?
      ensures var st := MailStep(basic, prompt);
        st.outcome.Err? && !st.outcome.error.MissingMailSource? ==> st.concepts == []
    {
      var full := fetchFullEmailById(basic.id);
      if full.Ok? {
        ProcessEmailShape(full.value, prompt);
      }
    }

    /** The loop over the mails to process, round by round; the first failure ends it. */
    function Loop(mails: seq<Mail>, prompt: string): Progress
      decreases |mails|
    {
      if mails == [] then Progress(None, [], [], [])
      else
        var p := Loop(mails[..|mails| - 1], prompt);
        if p.failure.Some? then p
        else
          var st := MailStep(mails[|mails| - 1], prompt);
          if st.outcome.Err? then Progress(Some(st.outcome.error), p.audits, p.blobs, p.concepts + st.concepts)
          else Progress(None, p.audits + [st.outcome.value.0], p.blobs + [st.outcome.value.1], p.concepts + st.concepts)
    }

    /** Once a round has failed, the later mails change nothing. */
    lemma {:induction false} LoopStopsAtFailure(mails: seq<Mail>, prompt: string, k: nat)
      requires k <= |mails|
      requires Loop(mails[..k], prompt).failure.Some?
      ensures Loop(mails, prompt) == Loop(mails[..k], prompt)
      decreases |mails|
    {
      if k < |mails| {
        assert mails[..|mails| - 1][..k] == mails[..k];
        LoopStopsAtFailure(mails[..|mails| - 1], prompt, k);
      } else {
        assert mails[..k] == mails;
      }
    }

    /**
     * Without a failure every mail gets exactly one audit and one blob; with
     * one, fewer audits than mails exist, and as many blobs as audits.
     */
    lemma {:induction false} LoopCounts(mails: seq<Mail>, prompt: string)
      ensures var p := Loop(mails, prompt);
        && |p.blobs| == |p.audits|
        && (p.failure.None? ==> |p.audits| == |mails|)
        && (p.failure.Some? ==> |p.audits| < |mails|)
      decreases |mails|
    {
      if mails != [] {
        LoopCounts(mails[..|mails| - 1], prompt);
      }
    }

    /** The last mail adds its round's audit and blob when no earlier round failed and its own succeeded. */
    lemma LoopLast(mails: seq<Mail>, prompt: string)
      requires mails != []
      ensures var p := Loop(mails[..|mails| - 1], prompt);
        var q := Loop(mails, prompt);
        var o := MailStep(mails[|mails| - 1], prompt).outcome;
        if p.failure.None? && o.Ok? then q.audits == p.audits + [o.value.0] && q.blobs == p.blobs + [o.value.1]
        else q.audits == p.audits && q.blobs == p.blobs
    {
    }

    /** The outcome of the round for a mail, as a function of the mail. */
    function Round(prompt: string): (step: Mail -> Result<(MailAudit, Blob), Failure>)
      ensures forall m :: step(m) == MailStep(m, prompt).outcome
    {
      m => MailStep(m, prompt).outcome
    }

    /** Audit and blob `i` are the outcome of the round for mail `i`, in mail order. */
    lemma {:induction false} LoopRounds(mails: seq<Mail>, prompt: string)
      ensures RoundsMatch(mails, Round(prompt), Loop(mails, prompt).audits, Loop(mails, prompt).blobs)
      decreases |mails|
    {
      if mails != [] {
        var prefix := mails[..|mails| - 1];
        LoopRounds(prefix, prompt);
        LoopLast(mails, prompt);
        var p := Loop(prefix, prompt);
        var o := MailStep(mails[|mails| - 1], prompt).outcome;
        if p.failure.None? && o.Ok? {
          LoopCounts(prefix, prompt);
          RoundsAppend(mails, Round(prompt), p.audits, p.blobs, o.value.0, o.value.1);
        } else {
          RoundsKeep(mails, Round(prompt), p.audits, p.blobs);
        }
      }
    }

    /**
     * `process_emails(days)` as a value: read the configuration, fetch and
     * filter, run the loop, and only when it finished write the run audit
     * and return the number of mails processed.
     */
    function RunSpec(days: int): (out: RunOutcome)
      ensures out.result.Ok? <==> out.runAudit.Some?
      ensures out.result.Ok? ==> out.result.value == |out.blobs|
    {
      var cfg := LoadConfig(config);
      if cfg.Err? then RunOutcome(Err(cfg.error), [], [], None)
      else
        var fetched := fetchBasicEmails(days);
        if fetched.Err? then RunOutcome(Err(CollaboratorFailed(fetched.error)), [], [], None)
        else
          var emails := fetched.value;
          var mails := MailsToProcess(emails, cfg.value.approvedMails);
          var p := Loop(mails, CombinedPrompt(cfg.value));
          LoopCounts(mails, CombinedPrompt(cfg.value));
          if p.failure.Some? then RunOutcome(Err(p.failure.value), p.blobs, p.concepts, None)
          else
            var window := Window(mails);
            RunOutcome(Ok(|mails|), p.blobs, p.concepts,
                       Some(RunAudit(|emails|, |mails|, window.0, window.1, p.audits)))
    }

    /**
     * A run that returns writes exactly one run audit: it counts the fetched
     * mails and the mails to process, which are no more, its window is that
     * of the mails to process, and it holds one mail audit and the run one
     * blob per mail to process, the blob named after the audit's identifier.
     * A run that raises writes no run audit.
     */
    lemma RunShape(days: int)
      ensures var out := RunSpec(days);
        out.result.Ok? <==> out.runAudit.Some?
      ensures var out := RunSpec(days);
        out.result.Ok? ==>
          var cfg := LoadConfig(config).value;
          var emails := fetchBasicEmails(days).value;
          var mails := MailsToProcess(emails, cfg.approvedMails);
          var audit := out.runAudit.value;
          && audit.totalEmailsFetched == |emails|
          && audit.totalEmailsProcessed == |mails| == out.result.value
          && audit.totalEmailsProcessed <= audit.totalEmailsFetched
          && (audit.mailStartWindow, audit.mailEndWindow) == Window(mails)
          && |audit.processedMails| == |out.blobs| == |mails|
          && (forall i :: 0 <= i < |mails| ==> out.blobs[i].name == audit.processedMails[i].mailIdentifier + ".json")
    {
      var out := RunSpec(days);
      var cfg := LoadConfig(config);
      if cfg.Ok? && fetchBasicEmails(days).Ok? {
        var mails := MailsToProcess(fetchBasicEmails(days).value, cfg.value.approvedMails);
        var prompt := CombinedPrompt(cfg.value);
        LoopCounts(mails, prompt);
        LoopRounds(mails, prompt);
        var p := Loop(mails, prompt);
        forall i | 0 <= i < |p.audits|
          ensures p.blobs[i].name == p.audits[i].mailIdentifier + ".json"
        {
          MailStepShape(mails[i], prompt);
        }
      }
    }

    /**
     * `process_email`: run the text chain on the body, replace the body with
     * the result, ask the extractor, and merge its concepts into the graph.
     * When the extractor raises, the graph is untouched.
     */
    method ProcessEmail(email: Mail, prompt: string) returns (r: Result<EmailResult, Failure>)
      modifies graph
      ensures r == ProcessEmailSpec(email, prompt)
      ensures r.Ok? ==> graph.nodes == old(graph.nodes) + NodesOf(r.value.processed.concepts)
      ensures r.Ok? ==> graph.edges == old(graph.edges) + EdgesOf(r.value.processed.concepts)
      ensures r.Err? ==> graph.nodes == old(graph.nodes) && graph.edges == old(graph.edges)
    {
      var source := ExtractEmailFromSender(email.sender);
      var cleaned, audits := wrapper.Process(email.body, source);
      var updated := email.(body := cleaned);
      var response := extractKnowledge(cleaned, prompt);
      if response.Err? {
        return Err(CollaboratorFailed(response.error));
      }
      var metered := response.value;
      graph.AddKnowledge(metered.concepts, identifier(updated), ExtractEmailFromSender(updated.sender));
      var processed := ProcessedMail(updated, metered.totalTokens, metered.cachedTokens, metered.model,
                                     metered.provider, |metered.concepts|, KeywordCount(metered.concepts),
                                     UrlCount(metered.concepts), metered.concepts);
      r := Ok(EmailResult(processed, audits));
    }

    /**
     * `process_emails(days)`: the result, the uploads, the graph and the
     * audit store are those of `RunSpec(days)`; a raised exception leaves
     * the uploads and graph merges made before it, and writes no run audit.
     */
    method ProcessEmails(days: int := 7) returns (r: Result<nat, Failure>)
      modifies this, graph
      ensures r == RunSpec(days).result
      ensures uploads == old(uploads) + RunSpec(days).blobs
      ensures graph.nodes == old(graph.nodes) + NodesOf(RunSpec(days).concepts)
      ensures graph.edges == old(graph.edges) + EdgesOf(RunSpec(days).concepts)
      ensures RunSpec(days).runAudit.Some? ==> auditItems == old(auditItems) + [RunSpec(days).runAudit.value]
      ensures RunSpec(days).runAudit.None? ==> auditItems == old(auditItems)
      ensures old(graph.Valid()) ==> graph.Valid()
    {
      if graph.Valid() {
        MergeKeepsWellFormed(graph.nodes, graph.edges, RunSpec(days).concepts);
      }
      var cfg := LoadConfig(config);
      if cfg.Err? {
        return Err(cfg.error);
      }
      var fetched := fetchBasicEmails(days);
      if fetched.Err? {
        return Err(CollaboratorFailed(fetched.error));
      }
      var emails := fetched.value;
      var mails := MailsToProcess(emails, cfg.value.approvedMails);
      var window := Window(mails);
      var failure, processAudits := ProcessMails(mails, CombinedPrompt(cfg.value));
      if failure.Some? {
        return Err(failure.value);
      }
      auditItems := auditItems + [RunAudit(|emails|, |mails|, window.0, window.1, processAudits)];
      r := Ok(|mails|);
    }

    /**
     * The `for` loop of `process_emails` over the mails to process, which
     * stops at the first exception: its outcome is `Loop(mails, prompt)`.
     */
    method ProcessMails(mails: seq<Mail>, prompt: string) returns (failure: Option<Failure>, processAudits: seq<MailAudit>)
      modifies this, graph
      ensures failure == Loop(mails, prompt).failure
      ensures processAudits == Loop(mails, prompt).audits
      ensures uploads == old(uploads) + Loop(mails, prompt).blobs
      ensures graph.nodes == old(graph.nodes) + NodesOf(Loop(mails, prompt).concepts)
      ensures graph.edges == old(graph.edges) + EdgesOf(Loop(mails, prompt).concepts)
      ensures auditItems == old(auditItems)
    {
      ghost var nodes0, edges0 := graph.nodes, graph.edges;
      processAudits := [];
      var i := 0;
      while i < |mails|
        invariant 0 <= i <= |mails|
        invariant Loop(mails[..i], prompt).failure.None?
        invariant processAudits == Loop(mails[..i], prompt).audits
        invariant uploads == old(uploads) + Loop(mails[..i], prompt).blobs
        invariant graph.nodes == nodes0 + NodesOf(Loop(mails[..i], prompt).concepts)
        invariant graph.edges == edges0 + EdgesOf(Loop(mails[..i], prompt).concepts)
        invariant auditItems == old(auditItems)
      {
        var round := LoopRound(mails, prompt, i, nodes0, edges0);
        if round.Err? {
          return Some(round.error), processAudits;
        }
        processAudits := processAudits + [round.value.0];
        AppendAssoc(old(uploads), Loop(mails[..i], prompt).blobs, [round.value.1]);
        uploads := uploads + [round.value.1];
        i := i + 1;
      }
      assert mails[..i] == mails;
      failure := None;
    }

    /**
     * Round `i` of the loop over `mails`, when the rounds before it did not
     * fail: its outcome is what `Loop` records for `mails[..i + 1]`, and a
     * failing round fixes the outcome of the whole loop.
     */
    method LoopRound(mails: seq<Mail>, prompt: string, i: nat, ghost nodes0: set<GraphNode>, ghost edges0: seq<GraphEdge>)
      returns (round: Result<(MailAudit, Blob), Failure>)
      requires i < |mails|
      requires Loop(mails[..i], prompt).failure.None?
      requires graph.nodes == nodes0 + NodesOf(Loop(mails[..i], prompt).concepts)
      requires graph.edges == edges0 + EdgesOf(Loop(mails[..i], prompt).concepts)
      modifies graph
      ensures var p, q := Loop(mails[..i], prompt), Loop(mails[..i + 1], prompt);
        && graph.nodes == nodes0 + NodesOf(q.concepts)
        && graph.edges == edges0 + EdgesOf(q.concepts)
        && (round.Err? ==> var all := Loop(mails, prompt);
              all.failure == Some(round.error) && all.audits == p.audits && all.blobs == p.blobs && all.concepts == q.concepts)
        && (round.Ok? ==> q.failure.None? && q.audits == p.audits + [round.value.0] && q.blobs == p.blobs + [round.value.1])
    {
      ghost var before := Loop(mails[..i], prompt);
      LoopUnfold(mails, prompt, i);
      round := ProcessRound(mails[i], prompt);
      GraphGrows(nodes0, edges0, before.concepts, MailStep(mails[i], prompt).concepts);
      if round.Err? {
        RoundFailed(mails, prompt, i);
      }
    }

    /**
     * One round of the loop of `process_emails` for `basic`: fetch the full
     * mail, process it, build its audit record and its blob. A failure at the
     * audit record comes after the concepts were merged.
     */
    method ProcessRound(basic: Mail, prompt: string) returns (r: Result<(MailAudit, Blob), Failure>)
      modifies graph
      ensures r == MailStep(basic, prompt).outcome
      ensures graph.nodes == old(graph.nodes) + NodesOf(MailStep(basic, prompt).concepts)
      ensures graph.edges == old(graph.edges) + EdgesOf(MailStep(basic, prompt).concepts)
    {
      var full := fetchFullEmailById(basic.id);
      if full.Err? {
        return Err(CollaboratorFailed(full.error));
      }
      var email := full.value;
      var bodySizeBefore := |email.body|;
      var processed := ProcessEmail(email, prompt);
      if processed.Err? {
        return Err(processed.error);
      }
      var pm := processed.value.processed;
      var source := ExtractEmailFromSender(email.sender);
      if source.None? {
        return Err(MissingMailSource(email.sender));
      }
      var size := |pm.mail.body|;
      var mailAudit := MailAudit(identifier(pm.mail), source.value, bodySizeBefore, size,
                                 CalculateSavings(bodySizeBefore, size), pm.tokensUsed, pm.tokensCached,
                                 pm.model, pm.provider, pm.conceptCount, pm.keywordCount, pm.urlCount,
                                 processed.value.steps, pm.concepts);
      r := Ok((mailAudit, Blob(identifier(pm.mail) + ".json", blobContainer, size, pm)));
    }

    /** Round `i` of the loop over `mails`, when the rounds before it did not fail. */
    lemma LoopUnfold(mails: seq<Mail>, prompt: string, i: nat)
      requires i < |mails|
      requires Loop(mails[..i], prompt).failure.None?
      ensures var p, st := Loop(mails[..i], prompt), MailStep(mails[i], prompt);
        Loop(mails[..i + 1], prompt) ==
          if st.outcome.Err? then Progress(Some(st.outcome.error), p.audits, p.blobs, p.concepts + st.concepts)
          else Progress(None, p.audits + [st.outcome.value.0], p.blobs + [st.outcome.value.1], p.concepts + st.concepts)
    {
      assert mails[..i + 1][..i] == mails[..i];
    }

    /** A failing round `i` fixes the outcome of the whole loop. */
    lemma RoundFailed(mails: seq<Mail>, prompt: string, i: nat)
      requires i < |mails|
      requires Loop(mails[..i], prompt).failure.None?
      requires MailStep(mails[i], prompt).outcome.Err?
      ensures Loop(mails, prompt) == Loop(mails[..i + 1], prompt)
    {
      LoopUnfold(mails, prompt, i);
      LoopStopsAtFailure(mails, prompt, i + 1);
    }

    /** Merging the concepts of one more round extends the graph of the rounds before. */
    lemma GraphGrows(nodes0: set<GraphNode>, edges0: seq<GraphEdge>, before: seq<KnowledgeConcept>, merged: seq<KnowledgeConcept>)
      ensures nodes0 + NodesOf(before) + NodesOf(merged) == nodes0 + NodesOf(before + merged)
      ensures edges0 + EdgesOf(before) + EdgesOf(merged) == edges0 + EdgesOf(before + merged)
    {
      NodesOfAppend(before, merged);
      EdgesOfAppend(before, merged);
    }
  }
}
