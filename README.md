# Mail-ingestion pipeline of ai-mail-parser-aggregator, in Dafny

This project models the core of the mail-ingestion pipeline. It also proves
properties of that model. The pipeline works in these steps:

1. It reads its settings from the configuration store.
2. It fetches recent mails.
3. It keeps only the mails whose sender address is on an allow-list.
4. It runs each kept mail's body through a chain of text processors: HTML
   extraction and newsletter cleaners.
5. It asks a language model for the concepts in the cleaned text.
6. It merges those concepts, their URLs and their keywords into a knowledge
   graph.
7. It uploads the processed mail as a blob and records one audit per mail.
8. At the end it writes one run audit.

Modules, one per source file plus shared helpers:

| module | file | models |
|---|---|---|
| `Util` | `util.dfy` | `calculate_savings` |
| `TextProcessor` | `text_processor.dfy` | `TextProcessorWrapper.process`, the processor names and the stage audits |
| `NewsletterCleaner` | `newsletter_cleaner.dfy` | `NewsletterCleaner.process_text` and `AggressiveNewsletterCleaner.process_text` |
| `KnowledgeDb` | `knowledge_database.dfy` | `KnowledgeConcept` and `KnowledgeDatabase.add_knowledge` |
| `MailProcessing` | `mail_processor.dfy` | `MailProcessor`: the address extraction, the filter, the window, `process_email`, `process_emails` and the records |
| `PyStr` | `pystr.dfy` | the Python string operations used: `isspace`, `strip`, `split("\n")`, `"\n".join` |
| `Seqs` | `seqs.dfy` | subsequences, which describe what a regular-expression deletion may do |
| `Wrappers` | `wrappers.dfy` | `Option` and `Result` |

How the model represents the system:

- **Graph.** The graph is a class with two fields:
  - a set of `(label, name)` nodes, because `merge` inserts a node only when none with that label and name exists;
  - a sequence of edges, because every relationship is created anew.
- **Text chain and mail processor.** Both are classes. Their methods are proved against specification functions.
  - The chain's result (`Pipeline`) and audits (`StageAudits`) are instances of `RunChain` and `AuditsWith`. Those two take the stage function as a parameter. The positional lemmas are proved once for any stage function.
- **Collaborators.** The fetcher, the language model and `Mail.get_identifier` are function-valued fields. Each collaborator call either answers or fails. A failure stands for a raised exception.
- **Stores.** The configuration store is a map. The blob store and the audit store are the lists of what the processor uploaded or created.
- **Defaults.** The cleaner variants default both flags to on, as `NewsletterCleaner()` (service/text/newsletter_cleaner.py:42) does when application.py:106-108 builds the chain. `ProcessEmails` takes `days` with its default of 7 (service/mail/mail_processor.py:124).

The code differs from what such a pipeline is usually expected to do, and the model follows the code:

- **No per-mail error isolation.** The loop in `process_emails` has no `try`. The first failure ends the run. The uploads and graph merges already made stay, and no run audit is written.
- **Only Concept, URL and Keyword nodes, with DESCRIBES and REPRESENTS edges.** `add_knowledge` creates no Email, Website or Source nodes. It ignores `email_id` and `source`.
- **Edges can be duplicated.** Relationships are created, not merged. Ingesting the same concepts twice doubles their edges.

## Model

| member | source | states |
|---|---|---|
| `Util.CalculateSavings` | service/util.py:4-17 | A start size of 0 gives 0 whatever the end size. Otherwise the result times the start size equals (start − end) × 100. |
| `Util.SavingsOfEqualSizes` | service/util.py:17 | Equal sizes save 0 percent. |
| `Util.SavingsOfEmptyResult` | service/util.py:17 | A positive start size shrunk to 0 saves exactly 100 percent. |
| `Util.SavingsBounds` | service/util.py:17 | For 0 ≤ end ≤ start and start > 0, the savings lie in [0, 100]. |
| `Util.SavingsSign` | service/util.py:15-17 | With start > 0, the savings are ≥ 0 exactly when end ≤ start, and < 0 exactly when end > start. There is no clamping. |
| `PyStr.Strip` | service/text/newsletter_cleaner.py:98 | `strip()` leaves no whitespace at either end, never lengthens the text, keeps only characters of the input, and returns already-stripped text as it is. |
| `PyStr.StripOnlyEnds` | service/text/newsletter_cleaner.py:98 | The strip is the slice `s[i..j]`, where everything before `i` and from `j` on is whitespace. So only whitespace is cut, and only from the two ends. |
| `PyStr.StripSkipsSpace` | service/text/newsletter_cleaner.py:98 | A leading whitespace character makes no difference to the strip. |
| `PyStr.StripIdempotent` | service/text/newsletter_cleaner.py:143 | A second strip changes nothing. |
| `PyStr.Split` | service/text/newsletter_cleaner.py:94 | `split("\n")` yields at least one piece, and no piece holds a newline. |
| `PyStr.JoinShape` | service/text/newsletter_cleaner.py:94-95 | `"\n".join` starts with the first line and has at least one separator between each two lines. |
| `PyStr.JoinSplit` | service/text/newsletter_cleaner.py:94-95 | Joining the pieces of a split with newlines gives the original text. |
| `PyStr.SplitJoin` | service/text/newsletter_cleaner.py:94-95 | Splitting newline-free lines joined with newlines gives the lines back. |
| `PyStr.StripLinesLines` | service/text/newsletter_cleaner.py:94-95 | The per-line strip keeps the number of lines, and line `i` of the result is the strip of line `i` of the input. |
| `PyStr.StripLinesSpec` | service/text/newsletter_cleaner.py:94-95 | After the per-line strip, every line is stripped and the text is no longer. |
| `PyStr.StripKeepsLinesStripped` | service/text/newsletter_cleaner.py:98 | The final strip keeps every line stripped. |
| `NewsletterCleaner.DeletionShrinks` | service/text/newsletter_cleaner.py:74-76 | A substitution by the empty string never lengthens the text and leaves empty text empty. |
| `NewsletterCleaner.ApplyAll` | service/text/newsletter_cleaner.py:73-82 | Applying a pattern list in order leaves a subsequence of the text. |
| `NewsletterCleaner.Unescape` | service/text/newsletter_cleaner.py:70 | Un-escaping never lengthens the text and keeps it empty or non-empty. The first character becomes a newline or stays as it was. |
| `NewsletterCleaner.UnescapeRemovesEscapes` | service/text/newsletter_cleaner.py:70 | No literal `\n` or `\r` escape is left after un-escaping. |
| `NewsletterCleaner.UnescapeWithoutBackslash` | service/text/newsletter_cleaner.py:70 | Text without a backslash is left unchanged. |
| `NewsletterCleaner.CollapseNewlines` | service/text/newsletter_cleaner.py:91 | The collapse never lengthens the text and keeps a first character that is not a newline. |
| `NewsletterCleaner.CollapseLeavesNoTriple` | service/text/newsletter_cleaner.py:91 | Right after the collapse, no three newlines are adjacent. |
| `NewsletterCleaner.NoTripleSuffix` | service/text/newsletter_cleaner.py:91 | A suffix of text without three adjacent newlines has none either. |
| `NewsletterCleaner.CollapseWithoutTriple` | service/text/newsletter_cleaner.py:91 | Text without a run of three newlines is left exactly as it is. |
| `NewsletterCleaner.NonNewlines` | service/text/newsletter_cleaner.py:91 | Gives the characters other than newlines, in order. The result is no longer than the text and holds no newline. |
| `NewsletterCleaner.NonNewlinesAppend` | service/text/newsletter_cleaner.py:91 | Dropping newlines distributes over concatenation. |
| `NewsletterCleaner.NonNewlinesSkipRun` | service/text/newsletter_cleaner.py:91 | A leading run of newlines contributes no characters. |
| `NewsletterCleaner.CollapseKeepsNonNewlines` | service/text/newsletter_cleaner.py:91 | The collapse keeps every character other than a newline, in order: only newline runs change. |
| `NewsletterCleaner.StripAfterCollapseCanRecreateTriple` | service/text/newsletter_cleaner.py:91-95 | The per-line strip after the collapse can recreate three adjacent newlines: `"\n \n\n"` becomes `"\n\n\n"`. |
| `NewsletterCleaner.StripLinesExample` | service/text/newsletter_cleaner.py:94-95 | Stripping every line of `"\n \n\n"` gives `"\n\n\n"`. |
| `NewsletterCleaner.NormalizeWhitespace` | service/text/newsletter_cleaner.py:89-95 | After normalisation every line is stripped, and the text is no longer. |
| `NewsletterCleaner.DeleteBoilerplate` | service/text/newsletter_cleaner.py:72-86 | The header, footer and optional e-mail deletions leave a subsequence of their input. |
| `NewsletterCleaner.Clean` | service/text/newsletter_cleaner.py:53-100 | Empty text is returned as is. The output is never longer than the input and has no whitespace at either end. |
| `NewsletterCleaner.CleanLinesStripped` | service/text/newsletter_cleaner.py:89-98 | With normalisation on, no line of the output has whitespace at either end. |
| `NewsletterCleaner.CleanWithoutOptions` | service/text/newsletter_cleaner.py:64-98 | With both flags off, the output is the strip of the header and footer deletions applied to the un-escaped text. What is stripped is a subsequence of the un-escaped text. |
| `NewsletterCleaner.AggressiveClean` | service/text/newsletter_cleaner.py:122-145 | The aggressive cleaner maps empty text to empty text. Its output is never longer than the input and is stripped. |
| `TextProcessor.Name` | service/text/text_processor.py:15-17 | Each processor's name is its class name, and each class name identifies exactly one kind of processor. |
| `TextProcessor.ProcessText` | service/text/text_processor.py:67 | `process_text` of a cleaner maps empty text to empty text, never lengthens it and strips it. The variants record the cleaners' default flags, both on. |
| `TextProcessor.NewsletterLinesStripped` | service/text/newsletter_cleaner.py:53-100 | A `NewsletterCleaner` that normalises whitespace also strips every line of its result. |
| `TextProcessor.Pipeline` | service/text/text_processor.py:62-80 | The empty chain returns the text unchanged. |
| `TextProcessor.CleanersNeverLengthen` | service/text/text_processor.py:62-80 | A chain made only of cleaners never lengthens the text. |
| `TextProcessor.AuditOf` | service/text/text_processor.py:65-78 | One stage's audit has the processor's name and 0 tokens. Its start is the input size, its end is the output size, and its savings are those of the two sizes. |
| `TextProcessor.CleanerAuditNonNegative` | service/text/text_processor.py:65-78 | A cleaner's stage never grows and its savings are never negative. |
| `TextProcessor.StageAuditsLength` | service/text/text_processor.py:62-80 | There is one audit per processor. |
| `TextProcessor.StageAuditsStep` | service/text/text_processor.py:62-80 | Running processor i after the first i keeps their audits and appends processor i's audit, taken on their output. |
| `TextProcessor.CleanerSavingsNonNegative` | service/text/text_processor.py:65-75 | A newsletter stage never lengthens its input, so its recorded savings are never negative. |
| `TextProcessor.StageAuditAt` | service/text/text_processor.py:64-78 | There is one audit per processor. Audit i is that of processor i, run on the output of the processors before it. |
| `TextProcessor.PipelineStep` | service/text/text_processor.py:64-79 | Running the first i+1 processors is running processor i on the output of the first i. |
| `TextProcessor.StageAuditsRecords` | service/text/text_processor.py:62-80 | There is one audit per processor, in order. Each audit has the processor's name, 0 tokens, and savings computed from its own start and end sizes. |
| `TextProcessor.StageAuditLink` | service/text/text_processor.py:66-78 | Audit `i` ends at the size audit `i + 1` starts from, because each processor gets the previous one's output. |
| `TextProcessor.StageAuditsChain` | service/text/text_processor.py:66-78 | Every audit ends where the next one starts. |
| `TextProcessor.StageAuditsEnds` | service/text/text_processor.py:62-80 | For a non-empty list, the first audit starts at the input length and the last audit ends at the length of the returned text. |
| `TextProcessor.PipelineAppend` | service/text/text_processor.py:63-80 | Running the chain `ps1 + ps2` is running `ps2` on the output of `ps1`. |
| `TextProcessor.PipelinePair` | service/text/text_processor.py:63-80 | The chain `[A, B]` yields `B(A(text))`. |
| `TextProcessor.PipelineIgnoresSource` | service/text/text_processor.py:67 | The result does not depend on the `source` passed to every processor. |
| `TextProcessor.DefaultChain` | application.py:106-108 | The application's chain, `HtmlProcessor()` then `NewsletterCleaner()` with its default flags, returns the cleaned extracted text. That text is stripped, every line of it is stripped, and it is no longer than the extracted text. |
| `TextProcessor.TextProcessorWrapper.constructor` | service/text/text_processor.py:48-49 | The wrapper keeps the processor list as given. |
| `TextProcessor.TextProcessorWrapper.Process` | service/text/text_processor.py:51-80 | The method returns the chain's result and its audit list. An empty processor list returns the text unchanged with no audits. |
| `KnowledgeDb.UrlNodesExactly` | service/database/knowledge_database.py:58-59 | The URL nodes merged are exactly one per URL of the list. |
| `KnowledgeDb.KeywordNodesExactly` | service/database/knowledge_database.py:73-74 | The keyword nodes merged are exactly one per keyword of the list. |
| `KnowledgeDb.NodesOfExactly` | service/database/knowledge_database.py:56-74 | A node is merged exactly when it is a concept name, a URL or a keyword of one of the concepts, with the matching label. |
| `KnowledgeDb.NodesOf` | service/database/knowledge_database.py:56-74 | Every concept's own Concept node is among the merged nodes. |
| `KnowledgeDb.EdgesOf` | service/database/knowledge_database.py:56-88 | One call creates one edge per (concept, URL) pair and one per (concept, keyword) pair. |
| `KnowledgeDb.UrlCount` | service/mail/mail_processor.py:232-237 | No concept has more URLs than the mail's URL total. |
| `KnowledgeDb.KeywordCount` | service/mail/mail_processor.py:232-237 | No concept has more keywords than the mail's keyword total. |
| `KnowledgeDb.DescribesEdgesWellFormed` | service/database/knowledge_database.py:58-71 | Each DESCRIBES edge goes from a URL node to a Concept node, and both are in the graph. |
| `KnowledgeDb.RepresentsEdgesWellFormed` | service/database/knowledge_database.py:73-88 | Each REPRESENTS edge goes from a Keyword node to a Concept node, and both are in the graph. |
| `KnowledgeDb.EdgesOfWellFormed` | service/database/knowledge_database.py:56-88 | Every edge created joins two merged nodes, with the label typing above. |
| `KnowledgeDb.MergeKeepsWellFormed` | service/database/knowledge_database.py:49-88 | Merging concepts into a well-formed graph leaves it well-formed. |
| `KnowledgeDb.DescribesCount` | service/database/knowledge_database.py:58-71 | There is one DESCRIBES edge per URL. |
| `KnowledgeDb.RepresentsCount` | service/database/knowledge_database.py:73-88 | There is one REPRESENTS edge per keyword. |
| `KnowledgeDb.DescribesEdgeAt` | service/database/knowledge_database.py:61-71 | DESCRIBES edge j goes from URL j to the concept. |
| `KnowledgeDb.NodesOfAppend` | service/database/knowledge_database.py:56-74 | Merging `a` then `b` merges the same nodes as merging `a + b`. |
| `KnowledgeDb.EdgesOfAppend` | service/database/knowledge_database.py:56-88 | Creating the edges of `a`, then those of `b`, creates the edges of `a + b`, in order. |
| `KnowledgeDb.ReingestDuplicatesEdges` | service/database/knowledge_database.py:56-88 | A second identical call leaves the node set as it was. It adds every edge again, exactly as one call with the concept list repeated would, which doubles the edges created. |
| `KnowledgeDb.KnowledgeDatabase.constructor` | service/database/knowledge_database.py:32-47 | The store starts with the graph the connection opens on. |
| `KnowledgeDb.KnowledgeDatabase.AddKnowledge` | service/database/knowledge_database.py:49-88 | The new node set is the old one plus the merged nodes. The new edge list is the old one followed by the created edges. Nothing is removed. An empty concept list changes nothing. `email_id` and `source` play no part. Well-formedness is kept. |
| `KnowledgeDb.KnowledgeDatabase.MergeUrls` | service/database/knowledge_database.py:58-71 | The URL loop adds the URL nodes, and appends one DESCRIBES edge per URL, in order. |
| `KnowledgeDb.KnowledgeDatabase.MergeKeywords` | service/database/knowledge_database.py:73-88 | The keyword loop adds the keyword nodes, and appends one REPRESENTS edge per keyword, in order. |
| `MailProcessing.FirstClose` | service/mail/mail_processor.py:246 | Gives the first `>` at or after a position, or the end of the text. |
| `MailProcessing.SearchAngle` | service/mail/mail_processor.py:246 | The search finds the leftmost `<[^>]+>` match, or reports that none exists. |
| `MailProcessing.ExtractEmailFromSender` | service/mail/mail_processor.py:243-251 | When a match exists, the result is the text inside the leftmost `<...>` match. Otherwise it is the stripped sender if the sender holds `@`, and `None` if it does not. A sender with neither `<` nor `@` has no address. |
| `MailProcessing.WithoutOpenBracket` | service/mail/mail_processor.py:249-251 | Without `<`, only the `@` test decides. |
| `MailProcessing.ExtractFromDisplayName` | service/mail/mail_processor.py:246-248 | `"Alice <a@x.com>"` gives `"a@x.com"`. |
| `MailProcessing.ExtractBareAddress` | service/mail/mail_processor.py:249-250 | `" b@y.com"` gives `"b@y.com"`. |
| `MailProcessing.ExtractWithoutAddress` | service/mail/mail_processor.py:251 | `"bad-format"` gives `None`. |
| `MailProcessing.ExtractEmptyBrackets` | service/mail/mail_processor.py:246-250 | `"<>x@y"` has no match, because the brackets are empty, so it gives the stripped sender. |
| `MailProcessing.Approved` | service/mail/mail_processor.py:133-137 | A mail is approved when its extracted address is on the allow-list. An approved sender holds `<` or `@`, and an empty allow-list approves nothing. |
| `MailProcessing.MailsToProcess` | service/mail/mail_processor.py:133-137 | Every mail kept was fetched, and its extracted address is on the allow-list. |
| `MailProcessing.MailsToProcessExactly` | service/mail/mail_processor.py:133-137 | The kept mails are a subsequence of the fetched mails, in fetch order. Each approved mail is kept as often as it was fetched. No other mail is kept, so a `None` address never passes. |
| `MailProcessing.EmptyAllowListSelectsNothing` | service/mail/mail_processor.py:126 | An empty allow-list keeps no mail. |
| `MailProcessing.Earliest` | service/mail/mail_processor.py:139 | `min` returns a member that is no later than any other. |
| `MailProcessing.Latest` | service/mail/mail_processor.py:140 | `max` returns a member that is no earlier than any other. |
| `MailProcessing.Dates` | service/mail/mail_processor.py:138 | Gives the mails' dates, in order. |
| `MailProcessing.Window` | service/mail/mail_processor.py:138-140 | Both bounds are `None` exactly when no mail is kept. Otherwise they are dates of kept mails that enclose every kept mail's date. |
| `MailProcessing.WindowOrdered` | service/mail/mail_processor.py:139-140 | The window start is never after its end. |
| `MailProcessing.LoadConfig` | service/mail/mail_processor.py:126-130 | The configuration loads exactly when the three items exist. Otherwise the error names a missing item. A missing entry takes its default: `[]` or `""`. |
| `MailProcessing.ReprItems` | service/mail/mail_processor.py:150 | Renders a list of strings as Python does inside brackets. An empty list renders as nothing. Otherwise the result is quoted at both ends and begins with the first entry after its quote. |
| `MailProcessing.CombinedPrompt` | service/mail/mail_processor.py:150 | The prompt is the LLM prompt, a newline, the topic prompt, a space and the rendered topic list in brackets, one after another. |
| `MailProcessing.CombinedPromptDetermines` | service/mail/mail_processor.py:150 | For parts of equal lengths, two configurations give the same prompt exactly when their LLM prompts, topic prompts and rendered topic lists agree. |
| `MailProcessing.MailProcessor.constructor` | service/mail/mail_processor.py:103-122 | The processor keeps its collaborators, and starts with nothing uploaded and no audit written. |
| `MailProcessing.MailProcessor.ProcessEmailSpec` | service/mail/mail_processor.py:200-241 | On success the processed mail differs from the input mail only in its body, and there is one stage audit per processor. |
| `MailProcessing.MailProcessor.ProcessEmailShape` | service/mail/mail_processor.py:200-241 | It succeeds exactly when the extractor answers. Then the body becomes the cleaned text, and the other mail fields are unchanged. The concepts are the extractor's. Their count, keyword sum and URL sum match, and the two sums add up to the number of edges. There is one stage audit per processor. |
| `MailProcessing.MailProcessor.MailStep` | service/mail/mail_processor.py:144-186 | A completed round's blob is named after its audit's identifier plus `.json`, and the audit's concepts are those the round merged. |
| `MailProcessing.MailProcessor.MailStepShape` | service/mail/mail_processor.py:143-186 | A completed round's blob is named after its audit's identifier plus `.json`, and sized to the cleaned body. The audit has the original body size and the savings of the two sizes. Its counts match its concepts, and those are the concepts merged. Its source is the sender address of the full mail. A missing address is the only failure after the merge: a failed fetch or a failed extraction merges no concepts. |
| `MailProcessing.MailProcessor.LoopStopsAtFailure` | service/mail/mail_processor.py:143-186 | After a failing round, later mails change nothing. |
| `MailProcessing.MailProcessor.LoopCounts` | service/mail/mail_processor.py:143-186 | There are always as many blobs as audits. Without a failure there is one audit per kept mail. With a failure there are fewer audits than mails. |
| `MailProcessing.MailProcessor.LoopLast` | service/mail/mail_processor.py:143-186 | The last mail adds its round's audit and blob exactly when no earlier round failed and its own round succeeded. Otherwise it adds neither. |
| `MailProcessing.MailProcessor.LoopRounds` | service/mail/mail_processor.py:143-186 | Audit `i` and blob `i` are what the round for mail `i` produced, in mail order. |
| `MailProcessing.MailProcessor.RunSpec` | service/mail/mail_processor.py:124-198 | A run writes its run audit exactly when it returns, and then returns the number of blobs it uploaded. |
| `MailProcessing.MailProcessor.RunShape` | service/mail/mail_processor.py:124-198 | A run writes its run audit exactly when it returns. The audit's fetched and processed totals are those counts, and processed ≤ fetched. The return value is the processed total. The window is that of the kept mails. There is one mail audit and one blob per kept mail, and each blob is named after its audit's identifier plus `.json`. |
| `MailProcessing.MailProcessor.ProcessEmail` | service/mail/mail_processor.py:200-241 | The result is `process_email`'s value. On success the extracted concepts are merged into the graph. When the extractor raises, the graph is untouched. |
| `MailProcessing.MailProcessor.ProcessRound` | service/mail/mail_processor.py:144-186 | One round returns its audit and blob or its failure. The graph grows by that round's concepts. |
| `MailProcessing.MailProcessor.ProcessMails` | service/mail/mail_processor.py:143-186 | The loop stops at the first failure. Its audits, uploads and graph growth are the loop specification's, and no run audit is written. |
| `MailProcessing.MailProcessor.LoopRound` | service/mail/mail_processor.py:144-186 | One round of the loop extends the graph, the audits and the uploads as `Loop` does for one more mail. A failing round fixes the outcome of the whole loop. |
| `MailProcessing.MailProcessor.ProcessEmails` | service/mail/mail_processor.py:124-198 | The result, the uploads, the graph and the audit store are those of the run specification. A failing run writes no run audit. Graph well-formedness is kept. `days` defaults to 7. |

## Left out

- Fetching mail over IMAP, and MIME and date parsing, are not modelled. The listing and the full-mail lookup are function parameters. `fetch_basic_emails` and `fetch_full_email_by_id` are not defined in `service/mail_fetcher.py`. Attachments are not modelled.
- The language-model call and its JSON parsing are not modelled. The extractor is a function of the query and the prompt, returning the concepts and the token metering.
- The Azure blob, document and configuration stores are not modelled as services. They are a list of uploads, a list of created items and a map. Failures of the blob, audit and graph stores are not modelled. The extractor and the fetcher may fail.
- HTML extraction with BeautifulSoup (`HtmlProcessor`) is an opaque function carried by the `Html` variant.
- Regular-expression matching is not modelled for the header, footer, e-mail and aggressive patterns. Each is a deletion that returns a subsequence of its input. The un-escaping, the newline collapse, the per-line strip and the final strip are modelled exactly.
- Wall-clock times, durations, the generated run-audit id, the `processed_at` stamp and JSON serialisation are not modelled. A blob carries the processed mail itself.
- Savings are exact reals, and floating-point rounding is not modelled.
- `Mail.get_identifier` is not part of this model, because the `Mail` class in service/mail_fetcher.py:31-40 has no `get_identifier` method. It is a function parameter of the processor.
- `email.body = cleaned_text` is modelled on values. The processed mail holds a copy of the mail with the new body. Aliasing of the mail object is not modelled.
- `MailProcessing.CombinedPrompt`: the topic list is rendered the way Python prints a list of plain strings, each in single quotes. Quote selection and escaping of quotes or backslashes are not modelled. Other JSON values are not modelled.
- `KnowledgeDb.KnowledgeDatabase.AddKnowledge`: the graph is taken to hold at most one node per label and name, which `merge` maintains. On a store that already held duplicates, each match-create would create one edge per matching pair.
- HTTP routing, dependency injection, environment and logging setup are not modelled.
