# A verified model of the JOE job-market assistant

The modelled system helps an economist on the academic job market. It
downloads the postings of the AEA Job Openings for Economists (JOE)
export and keeps them in one SQLite table, `job_postings`. A language
model enriches each posting with
- its details: requirements, materials and separate-application flags,
- the deadline,
- the field and level classification,
- the position track.

It then scores how well each posting fits the candidate, with a
rule-based calculator and with a language-model evaluator. A Flask web
application lists and filters the postings and runs the enrichment and
matching batches.

This project restates the deterministic core of that program in Dafny and
proves what it promises. Each source file of the core is one module:

| module | source file |
|---|---|
| `JoeScraper` | `scraper/joe_scraper.py` |
| `JobDb` | `database/job_db.py` (with the columns of `database/models.py`) |
| `Migrate`, `DateFormats` | `database/migrate.py`; the `strptime` formats it and the parser use |
| `TextProcessor` | `processor/text_processor.py` |
| `LlmParser` | `processor/llm_parser.py` |
| `LevelNormalizer` | `processor/level_normalizer.py` |
| `PortfolioReader` | `matcher/portfolio_reader.py` |
| `FitCalculator` | `matcher/fit_calculator.py` |
| `JobAssessor` | `matcher/job_assessor.py` |
| `LlmFitEvaluator` | `matcher/llm_fit_evaluator.py` |
| `Truncation` | the word-boundary truncation shared by the assessor and the evaluator |
| `LlmTasks` | the task-id and result-batch interface the batch helpers use |
| `PromptLoader` | `config/prompt_loader.py` |
| `Cli`, `IncrementalProcessing` | `main.py`: the processed-job test, `update_database`, `import_from_csv` and `process_jobs_incrementally` |
| `Webapp`, `WebEnrichment`, `WebMatching` | `webapp/app.py`: filters, track lists, upload names, the enrichment batch and the matching batch |

The other modules are shared helpers:
- `Wrappers` holds `Option` and `Result`.
- `StringUtil` holds Python's string operations: `strip`, ASCII `lower`, `in`, `split` and `join`.
- `Values` holds the dynamic value a dictionary, a decoded JSON document or a database row holds, with Python's truthiness and `str()`.
- `Folds` holds a left fold and its lemmas.

The table is a class, `JobDb.JobTable`. Its rows are a map from job id to
row. Rows stored with a NULL `job_id` are kept in a separate sequence,
because no `WHERE job_id = ?` query finds them. The loops of `main.py` and
`webapp/app.py` that walk a list of jobs are methods with `while` loops.
Each one is proved equal to a fold of a per-job step function, and the
lemmas about the batch are proved about that fold.

Where the project's own description of the behaviour and the code differ,
the model follows the code:
- `_evaluate_position_track` strips and lower-cases the label before testing it
  against the allowed tracks, so `"Senior Tenure-Track"` is accepted.
- `_needs_llm_processing` holds only when all six enriched fields are
  empty, not when any one of them is.
- `parse_job_listings` reads an empty `jp_id` cell as the text `"nan"`. That
  as-written reading is modelled for the id only, by
  `JoeScraper.JobIdAsWritten`; `JoeScraper.ParseRow` reads every empty cell,
  the id's included, as empty text, which is the corrected reading. See the
  findings.

## Model

| member | source | states |
|---|---|---|
| Values.MeaningfulValueIff | webapp/app.py:899-906 | a value is meaningful exactly when it is not `None` and, if it is a string, not blank after stripping; `False` and empty lists and objects are meaningful |
| TextProcessor.CollapseSpaces | processor/text_processor.py:35 | every whitespace run becomes one blank: no two whitespace characters are adjacent, the blank is the only whitespace left, the result is empty exactly when the input is, starts with a blank exactly when the input starts with whitespace, and keeps the other characters in order |
| TextProcessor.CleanText | processor/text_processor.py:29-43 | `clean_text`: a missing or empty text gives `""`; otherwise each whitespace run becomes one blank and the ends are trimmed; its shape, fixpoint and idempotence are the lemmas below |
| TextProcessor.CleanTextShape | processor/text_processor.py:29-43 | the cleaned text is trimmed, its only whitespace is single blanks, and its visible characters are the input's in order (none for a missing text) |
| TextProcessor.CleanTextFixpoint | processor/text_processor.py:29-43 | a text that is already trimmed and collapsed comes back unchanged |
| TextProcessor.CleanTextIdempotent | processor/text_processor.py:29-43 | cleaning a cleaned text changes nothing |
| TextProcessor.CleanTextEmpty | processor/text_processor.py:31-38 | the result is empty exactly when the input is missing or holds no visible character |
| PromptLoader.GetPrompts | config/prompt_loader.py:93-110 | the result holds exactly the two prompts, each the on-disk override when the file decodes to an object holding a non-blank string for it, and the default otherwise |
| PromptLoader.DefaultsWithoutObject | config/prompt_loader.py:97-101 | a missing file, a corrupt one, or one that does not decode to an object gives the defaults |
| PromptLoader.OverrideRule | config/prompt_loader.py:102-105 | a string override is used as written, not stripped; a blank or non-string value leaves the default |
| PromptLoader.OtherKeysIgnored | config/prompt_loader.py:102-105 | keys of the file other than the prompt's own do not change the prompt chosen |
| PromptLoader.SavePrompts | config/prompt_loader.py:113-122 | what is written is an object of exactly the two prompts |
| PromptLoader.SaveThenGet | config/prompt_loader.py:102-122 | saving and loading again gives back each non-blank prompt saved, and the default for a blank one |
| PortfolioReader.LoadPortfolio | matcher/portfolio_reader.py:19-78 | without the directory the three documents are `None` and there is no combined text; otherwise each document is its text or `None` when nothing was extracted, and the combined text is the cleaned join of the non-empty texts |
| PortfolioReader.PresentKeepsText | matcher/portfolio_reader.py:67-70 | the texts joined are non-empty, and each non-empty text occurs among them exactly as often as among the documents |
| PortfolioReader.PresentInOrder | matcher/portfolio_reader.py:67-70 | the texts are joined in the order CV, research statement, teaching statement |
| PortfolioReader.NothingCombined | matcher/portfolio_reader.py:72 | with no document text the combined text is empty |
| PortfolioReader.OneDocumentCombined | matcher/portfolio_reader.py:72 | with a single document the combined text is that document's text, cleaned |
| PortfolioReader.PortfolioTextIff | matcher/portfolio_reader.py:28-72 | the fit evaluator receives portfolio text exactly when the directory exists and the documents hold a visible character |
| PortfolioReader.ExtractQualifications | matcher/portfolio_reader.py:81-109 | a `combined_text` that is not a string raises; otherwise the areas are the configured ones found in the lower-cased text, in configuration order, and the degree and postdoc entries follow the keyword tests, with no publications or skills |
| PortfolioReader.MatchedAreasIff | matcher/portfolio_reader.py:95-97 | an area is listed as often as it is configured when its lower-cased form occurs in the text, and not at all otherwise |
| PortfolioReader.EmptyTextMatchesNothing | matcher/portfolio_reader.py:91-107 | an empty text yields no area, no degree and no postdoc entry |
| Truncation.WordCutShort | matcher/llm_fit_evaluator.py:21-25 | a text that fits once stripped comes back stripped and otherwise unchanged, whatever the marker |
| Truncation.WordCutLong | matcher/llm_fit_evaluator.py:23-30 | a text longer than the limit once stripped becomes the kept part of its stripped form followed by the marker |
| Truncation.KeptShape | matcher/llm_fit_evaluator.py:26-29 | the kept part is a prefix of at most the limit; it ends just before the last blank among the first characters when that blank is past position 0, and is all of those characters when no such blank exists |
| Truncation.WordCutBound | matcher/llm_fit_evaluator.py:19-30 | a truncated text never exceeds the limit plus the marker's length |
| LlmTasks.TaskIds | matcher/llm_fit_evaluator.py:152 | only truthy job ids become tasks |
| LlmTasks.TaskIdsMember | matcher/llm_fit_evaluator.py:269 | every job with a truthy id is submitted |
| LlmTasks.KeptResultsExact | matcher/job_assessor.py:115 | a task's result is kept exactly when the runner produced one, and unchanged |
| LlmTasks.IdBatchKeeps | matcher/job_assessor.py:106-115 | a batch keyed by job id holds exactly the submitted ids with a result, all truthy, each mapped to its result |
| LlmTasks.PortfolioBatchEmpty | matcher/llm_fit_evaluator.py:257-263 | without jobs or without portfolio text a batch is empty |
| LlmTasks.PortfolioBatchKeeps | matcher/llm_fit_evaluator.py:257-291 | with jobs and portfolio text a batch holds exactly the submitted ids with a result, all truthy |
| LlmTasks.CollectResults | matcher/llm_fit_evaluator.py:168-170 | the collecting loop keeps each task's result when there is one, and nothing else |
| LlmFitEvaluator.TruncateTextShape | matcher/llm_fit_evaluator.py:19-30 | the portfolio summary is the stripped text when it fits, else its kept prefix followed by the blank and mis-decoded ellipsis the source appends |
| LlmFitEvaluator.JointAnswer | matcher/llm_fit_evaluator.py:205-227 | an accepted joint answer has both scores within [0, 100] |
| LlmFitEvaluator.EvaluateFitAndDifficulty | matcher/llm_fit_evaluator.py:175-243 | a joint evaluation exists only with portfolio text, and its scores lie within [0, 100] |
| LlmFitEvaluator.JointNeedsBothScores | matcher/llm_fit_evaluator.py:207-219 | a missing or non-numeric fit or difficulty score gives no result |
| LlmFitEvaluator.JointScoresAndDefaults | matcher/llm_fit_evaluator.py:214-227 | numeric scores are clamped into [0, 100], in-range ones are kept, and missing reasonings default to `''` and a missing alignment to `{}` |
| LlmFitEvaluator.JointNeedsPortfolio | matcher/llm_fit_evaluator.py:181-184 | without portfolio text there is no joint evaluation, whatever the model replies |
| LlmFitEvaluator.EvaluateFitWithLlm | matcher/llm_fit_evaluator.py:63-128 | a fit evaluation exists only with portfolio text, and its metadata holds exactly `reasoning` and `alignment` |
| LlmFitEvaluator.FitScoreFallback | matcher/llm_fit_evaluator.py:102-112 | the score is read from `fit_score`, or from `score` when that is absent; a value `float()` accepts is the result's score, and one it rejects gives no result |
| LlmFitEvaluator.FitScoreNotClamped | matcher/llm_fit_evaluator.py:108-120 | the single-job fit score is not clamped: a reply of 150 gives 150 |
| LlmFitEvaluator.EvaluateBatch | matcher/llm_fit_evaluator.py:131-172 | the batch is empty without jobs, without portfolio text or without any job id, and otherwise holds every result the runner produced |
| JobAssessor.BuildJobSnapshot | matcher/job_assessor.py:71-84 | `_build_job_snapshot`: the six labelled lines with their fallbacks, then the truncated requirements and description sections, joined by newlines; the fallback lemmas below state each line |
| JobAssessor.LineFallback | matcher/job_assessor.py:73-78 | a snapshot line shows its value when that is truthy, and its fallback otherwise |
| JobAssessor.PositionTypeFallback | matcher/job_assessor.py:75 | the position type falls back to the level, then to `N/A` |
| JobAssessor.LocationFallback | matcher/job_assessor.py:77 | the location falls back to the country, then to `N/A` |
| JobAssessor.SectionFallback | matcher/job_assessor.py:80-83 | a requirements or description section that is blank once stripped is shown as `Not specified.` |
| JobAssessor.TrackAnswer | matcher/job_assessor.py:92-99 | an accepted track is always one of the six options |
| JobAssessor.EvaluatePositionTrack | matcher/job_assessor.py:87-99 | a track the assessment returns is always one of the six options |
| JobAssessor.NoTrackWithoutAnswer | matcher/job_assessor.py:90-94 | no reply, an empty reply or an empty decoded answer gives no track |
| JobAssessor.TrackAcceptedIff | matcher/job_assessor.py:95-99 | a track comes back exactly when the label, stripped and lower-cased, is an option, and it comes back with the stripped reasoning |
| JobAssessor.MixedCaseTrackAccepted | matcher/job_assessor.py:95-96 | the label ` Senior Tenure-Track ` is accepted as `senior tenure-track` |
| JobAssessor.Clamp | matcher/job_assessor.py:136 | the result lies within [0, 100]; a value in range is kept, values below go to 0 and values above to 100 |
| JobAssessor.DifficultyAnswer | matcher/job_assessor.py:129-138 | an accepted difficulty score lies within [0, 100] |
| JobAssessor.EvaluateDifficulty | matcher/job_assessor.py:118-138 | a difficulty the assessment returns lies within [0, 100] |
| JobAssessor.NoDifficultyWithoutScore | matcher/job_assessor.py:132-135 | a missing or non-numeric score gives no assessment |
| JobAssessor.DifficultyClamped | matcher/job_assessor.py:132-138 | a numeric score is clamped into [0, 100], and one already in range is kept |
| LevelNormalizer.Label | processor/level_normalizer.py:8-17 | every detector reports a canonical label other than `Other` |
| LevelNormalizer.CommaSeparated | processor/level_normalizer.py:27 | replacing `/` and `;` by commas keeps the length and leaves neither character |
| LevelNormalizer.StripEach | processor/level_normalizer.py:25-29 | each piece is stripped, in order |
| LevelNormalizer.NonEmpty | processor/level_normalizer.py:30 | only non-empty pieces are kept, each one taken from the input |
| LevelNormalizer.TokensOfShape | processor/level_normalizer.py:20-31 | every token of a label is non-empty, stripped and free of `,`, `/`, `;` and `|` |
| LevelNormalizer.TokenizeAllShape | processor/level_normalizer.py:20-31 | every token of a list of labels is non-empty, stripped and free of separators |
| LevelNormalizer.Tokenize | processor/level_normalizer.py:20-31 | the tokenizing loop yields the label-by-label tokens, every one well formed |
| LevelNormalizer.DetectLevel | processor/level_normalizer.py:43-140 | each detector answers yes exactly when its title test holds or some token passes its token test |
| LevelNormalizer.DetectedLabels | processor/level_normalizer.py:173-191 | at least one label is detected |
| LevelNormalizer.DetectedLabelsMembers | processor/level_normalizer.py:173-191 | a level's label is detected exactly when its detector fires, `Research` only without a pre-doc or postdoc signal, `Other` exactly when nothing fires, and every detected label is canonical |
| LevelNormalizer.KeepMembers | processor/level_normalizer.py:193-198 | the ordering step keeps exactly the canonical labels that were detected |
| LevelNormalizer.KeepOrdered | processor/level_normalizer.py:193-198 | the ordering step repeats no label |
| LevelNormalizer.OrderByCanonical | processor/level_normalizer.py:193-203 | the two ordering loops report the detected labels in canonical order, each once |
| LevelNormalizer.NormalizeLevelLabels | processor/level_normalizer.py:143-205 | the method computes the detectors over the tokens of the labels and of the description, and orders their labels |
| LevelNormalizer.NormalizeLevels | processor/level_normalizer.py:143-205 | `normalize_level_labels` on text labels: the detected canonical labels in canonical order; `LevelNormalizer.NormalizeLevelLabels` computes it and the lemmas beside it state its order and default |
| LevelNormalizer.RawLevels | processor/level_normalizer.py:154-159 | `raw_levels` as given: `None` gives no label, a string is one label, a list gives its text items with falsy ones skipped and raises `AttributeError` on a truthy item that is not text, a dict gives its keys, and any other value is the `TypeError` of iterating it |
| LevelNormalizer.NormalizeLevelsIsOrdered | processor/level_normalizer.py:163-205 | normalizing is the ordering step applied to the seven detector outcomes on the combined tokens |
| LevelNormalizer.OrderedLabelsMembers | processor/level_normalizer.py:173-198 | each label is reported exactly when its detector fires (`Research` only without a trainee signal), and `Other` exactly when none fires |
| LevelNormalizer.OrderedLabelsShape | processor/level_normalizer.py:190-205 | the result is never empty, holds canonical labels only and repeats none |
| LevelNormalizer.OrderedLabelsOtherAlone | processor/level_normalizer.py:190-191 | `Other` never appears beside another label |
| LevelNormalizer.TitleIsPrimary | processor/level_normalizer.py:78-81 | a title naming an assistant professorship yields `Assistant`, whatever the model said |
| FitCalculator.MentionBonus | matcher/fit_calculator.py:35 | an area's bonus lies within [0, 30] and is at least ten once it is mentioned |
| FitCalculator.AreaBonus | matcher/fit_calculator.py:28-35 | the mention bonuses are never negative |
| FitCalculator.AreaMatches | matcher/fit_calculator.py:27-33 | no more areas match than are configured |
| FitCalculator.RelatedBonus | matcher/fit_calculator.py:48-53 | the related-keyword bonus lies within [0, 5 per listed area] |
| FitCalculator.Alignment | matcher/fit_calculator.py:18-55 | the research alignment lies within [0, 100] |
| FitCalculator.FirstContained | matcher/fit_calculator.py:50-53 | the keyword loop finds a keyword exactly when one of them occurs in the text |
| FitCalculator.ResearchAlignment | matcher/fit_calculator.py:18-55 | the scoring loops compute the research alignment |
| FitCalculator.AreaBonusZero | matcher/fit_calculator.py:28-35 | a text mentioning no focal area earns no bonus and no match |
| FitCalculator.AreaBonusHit | matcher/fit_calculator.py:31-35 | a text mentioning some focal area earns at least ten points and one match |
| FitCalculator.RelatedBonusZero | matcher/fit_calculator.py:48-53 | a text naming none of the related areas earns no related bonus |
| FitCalculator.AlignmentZero | matcher/fit_calculator.py:18-55 | a text mentioning no focal area and no related area scores zero |
| FitCalculator.AlignmentHit | matcher/fit_calculator.py:31-39 | one mentioned focal area earns at least ten points plus its share of forty |
| FitCalculator.SharedSkills | matcher/fit_calculator.py:88-89 | no more skills are shared than listed |
| FitCalculator.QualificationMatch | matcher/fit_calculator.py:58-92 | `calculate_qualification_match`: fifty for a missing requirements or portfolio text, otherwise the degree, skill and experience points; bounded by `FitCalculator.QualificationMatchRange` |
| FitCalculator.QualificationMatchRange | matcher/fit_calculator.py:58-92 | a missing requirements or portfolio text gives the neutral fifty; every score lies within [50, 100] |
| FitCalculator.QualificationPhd | matcher/fit_calculator.py:68-70 | a Ph.D. asked for and shown earns its twenty points |
| FitCalculator.PositionLevelMatch | matcher/fit_calculator.py:95-121 | the position score is one of 90, 85, 30, 80, 60 and 50 |
| FitCalculator.PositionLevelRules | matcher/fit_calculator.py:101-121 | ninety exactly when `assistant` and `professor` occur; thirty exactly when the first two rules do not apply and `associate` or `full professor` occurs; fifty exactly when no keyword occurs |
| FitCalculator.InstitutionMatch | matcher/fit_calculator.py:124-143 | the institution score is one of 40, 50 and 70 |
| FitCalculator.InstitutionRules | matcher/fit_calculator.py:129-143 | forty exactly for a community or teaching college, seventy exactly for any other university, college or institute, fifty exactly when none of these words occurs |
| FitCalculator.FitScore | matcher/fit_calculator.py:146-191 | `calculate_fit_score` before rounding: the weighted sum of the research, qualification, position and institution scores; bounded by `FitCalculator.FitScoreRange` |
| FitCalculator.FitScoreRange | matcher/fit_calculator.py:146-191 | the weighted score never leaves [25, 95], inside the documented [0, 100] |
| FitCalculator.Insert | matcher/fit_calculator.py:197-201 | inserting adds the job to the multiset of jobs and keeps every score a number |
| FitCalculator.SortJobs | matcher/fit_calculator.py:197-201 | sorting permutes the jobs |
| FitCalculator.InsertSorted | matcher/fit_calculator.py:197-201 | inserting into a sorted list keeps it sorted |
| FitCalculator.SortJobsSorted | matcher/fit_calculator.py:197-201 | the sorted list is ordered by score in the requested direction |
| FitCalculator.InsertStable | matcher/fit_calculator.py:197-201 | inserting puts the job after the jobs already holding its score |
| FitCalculator.SortJobsStable | matcher/fit_calculator.py:197-201 | jobs sharing a score keep their input order |
| FitCalculator.RankJobs | matcher/fit_calculator.py:194-202 | `rank_jobs`: zero or one job comes back as given; otherwise a non-numeric score is the `TypeError` of `sorted`, and numeric scores give the stable sort by score; its properties are `FitCalculator.RankJobsSpec` |
| FitCalculator.RankJobsSpec | matcher/fit_calculator.py:194-202 | ranking fails exactly when two or more jobs are given and some score is not a number; a ranking that succeeds permutes the input, orders it by score (non-increasing when `reverse`) and keeps ties in input order |
| LlmParser.SelectProviderByName | processor/llm_parser.py:130-139 | a provider is chosen exactly when the lower-cased configured name is its name |
| LlmParser.SelectProviderCaseInsensitive | processor/llm_parser.py:132 | the letter case of the configured name does not matter |
| LlmParser.UnknownProviderSilent | processor/llm_parser.py:140-142 | an unknown provider yields no reply, whatever the clients would answer |
| LlmParser.FenceSplits | processor/llm_parser.py:183-184 | a reply opening with three backticks splits into at least two parts, so indexing the second part cannot fail |
| LlmParser.StripFenceUnfenced | processor/llm_parser.py:182-183 | a reply that does not open with a fence is only stripped |
| LlmParser.FencedParts | processor/llm_parser.py:184 | the second part of a fenced reply is the text between the first two fences |
| LlmParser.StripFenceTagged | processor/llm_parser.py:182-187 | a reply fenced as a `json` block gives the block without its tag, stripped |
| LlmParser.StripFenceUntagged | processor/llm_parser.py:182-187 | a fenced block without a tag gives the block, stripped |
| LlmParser.ParseReplyDefault | processor/llm_parser.py:174-198 | no reply, an empty reply or one that is not JSON gives the default answer |
| LlmParser.ExtractJobDetails | processor/llm_parser.py:145-198 | `extract_job_details`: the decoded reply, fences removed, or an empty object when there is no reply or it does not decode; `LlmParser.ExtractJobDetailsDefault` and `LlmParser.ParseReplyFenced` state both cases |
| LlmParser.ClassifyPosition | processor/llm_parser.py:236-270 | `classify_position`: the decoded reply, or level and type `Other` with an empty field focus; `LlmParser.ClassifyPositionDefault` states the default |
| LlmParser.ExtractJobDetailsDefault | processor/llm_parser.py:176-198 | job details default to an empty object |
| LlmParser.ClassifyPositionDefault | processor/llm_parser.py:252-270 | the classification defaults to level and type `Other` with an empty field focus |
| LlmParser.ParseReplyFenced | processor/llm_parser.py:182-191 | a `json` block is decoded from the text inside the fences |
| LlmParser.LlmDeadline | processor/llm_parser.py:212-217 | a model answer is used only when, trimmed of whitespace and quotes, it is a `%Y-%m-%d` date |
| LlmParser.ParseDeadlines | processor/llm_parser.py:201-233 | the method asks the model only for complex text, then tries the local formats in order, and otherwise returns the stripped text |
| LlmParser.Deadline | processor/llm_parser.py:201-233 | the value `parse_deadlines` returns: none for empty text, a valid model answer for complex text, then the first local format that reads the text, then the stripped text; the lemmas beside it state each case |
| LlmParser.DeadlineNoneIffEmpty | processor/llm_parser.py:203-204 | there is no deadline exactly when the text is empty |
| LlmParser.SimpleTextIgnoresModel | processor/llm_parser.py:207 | short text with no condition word never depends on the model |
| LlmParser.InvalidAnswerIgnored | processor/llm_parser.py:213-219 | a model answer that fails the date check counts as no answer |
| LlmParser.ValidAnswerUsed | processor/llm_parser.py:207-217 | a valid model answer for complex text is returned as answered |
| LlmParser.DeadlineShape | processor/llm_parser.py:222-233 | any other result is either the stripped text or a `%Y-%m-%d` date |
| LlmParser.UnreadableDeadlineKept | processor/llm_parser.py:224-233 | text no local format reads, with no help from the model, comes back stripped |
| LlmParser.SlashDeadlineMonthFirst | processor/llm_parser.py:224-227 | `03/04/2024` asks nothing of the model and is read month first, as `2024-03-04` |
| LlmParser.ConditionalDeadlineComplex | processor/llm_parser.py:207 | text worded as a condition, such as `Open until filled`, goes to the model |
| DateFormats.MatchPiece | database/migrate.py:63-80 | a directive that matches consumes at least one character and no more than there are |
| DateFormats.Strptime | database/migrate.py:46-50 | a successful parse names a date `datetime` accepts: a year from 1 to 9999, a month from 1 to 12 and a day inside that month |
| DateFormats.Render | database/migrate.py:78 | `%Y-%m-%d` output has ten characters: digits with dashes at positions 4 and 7 |
| DateFormats.MatchRendered | database/migrate.py:78 | `%Y-%m-%d` reads a rendered date back exactly, whatever text follows it |
| DateFormats.ParseRender | database/migrate.py:46-48 | rendering a date and parsing it with `%Y-%m-%d` gives the date back, and trailing text makes the parse fail |
| DateFormats.IsoEnds | database/migrate.py:46-48 | text the `%Y-%m-%d` check accepts starts and ends with a digit |
| DateFormats.RenderIsIso | database/migrate.py:78 | a rendered date passes the `%Y-%m-%d` check |
| Migrate.FirstParse | database/migrate.py:75-80 | the first format that parses gives a text that passes the `%Y-%m-%d` check |
| Migrate.TryFormats | database/migrate.py:75-84 | the format loop returns the rendered first parse, or nothing when no format parses |
| Migrate.FirstDate | database/migrate.py:75-80 | the first parse is a valid date whose rendering is the loop's result and reads back as the same date |
| Migrate.Accept | database/migrate.py:41-84 | accepted text always passes the `%Y-%m-%d` check and names the accepted date |
| Migrate.NormalizeDate | database/migrate.py:23-84 | the function as written: every value it returns passes the `%Y-%m-%d` check |
| Migrate.NormalizeDateValue | database/migrate.py:23-84 | the method with its format loop computes the function as written |
| Migrate.AcceptWhole | database/migrate.py:46-48 | text that passes the `%Y-%m-%d` check is accepted as it stands |
| Migrate.AcceptPart | database/migrate.py:53-58 | text with a blank and a colon whose first word passes the check is accepted as that first word |
| Migrate.AcceptFallback | database/migrate.py:62-84 | past the two fast paths, the result is the rendered first parse of the formats tried, or nothing |
| Migrate.NormalizeKeepsIso | database/migrate.py:41-48 | text that already passes the `%Y-%m-%d` check comes back unchanged |
| Migrate.NormalizeBlank | database/migrate.py:32-43 | `None`, blank text and `null` or `none` in any letter case give `None` |
| Migrate.NormalizeTimestamp | database/migrate.py:53-58 | a `YYYY-MM-DD HH:MM:SS` timestamp keeps its date part |
| Migrate.NormalizeDatePart | database/migrate.py:32-58 | trimmed text that is not an ISO date, holds a blank and a colon, and whose first word is an ISO date normalizes to that first word |
| Migrate.NormalizeIdempotent | database/migrate.py:23-84 | normalizing a normalized value changes nothing |
| Migrate.UsSlashBeforeEuSlash | database/migrate.py:63-66 | text both slash formats read is read month first |
| Migrate.AmbiguousSlashDate | database/migrate.py:65-66 | `03/04/2024` reads as the fourth of March month first and as the third of April day first |
| Migrate.NormalizeDateIso | database/migrate.py:23-31 | the corrected normalizer: every value it returns is exactly `YYYY-MM-DD` |
| Migrate.NormalizeDateValueIso | database/migrate.py:23-84 | the method with its format loop computes the corrected normalizer |
| Migrate.NormalizeSameDay | database/migrate.py:23-84 | both versions accept the same values and name the same day |
| Migrate.CanonicalFixed | database/migrate.py:46-48 | the canonical text of a day is its own normal form |
| Migrate.NormalizeIsoIdempotent | database/migrate.py:23-84 | the corrected normalizer is idempotent too |
| Migrate.ShortDateKeptAsWritten | database/migrate.py:46-48 | `2024-3-5` passes the `%Y-%m-%d` check and is stored unchanged as written, but becomes `2024-03-05` when corrected |
| Migrate.NormalizeIsoOfIso | database/migrate.py:46-48 | corrected, text that passes the check is rewritten as the canonical form of its day |
| Migrate.ShortDateMisorders | database/migrate.py:46-48 | compared as text, `2024-3-5` does not sort before `2024-03-10`, while `2024-03-05` does |
| Migrate.IsoNormalizer | database/migrate.py:23-84 | the corrected normalizer settles after one pass and writes only text passing the check |
| Migrate.UpdatesGiveRow | database/migrate.py:113-136 | writing only the differing columns gives the row with every date column normalized |
| Migrate.NormalizeRowShape | database/migrate.py:113-136 | only the three date columns change |
| Migrate.RowUpdates | database/migrate.py:113-130 | the per-row loop assigns exactly the date columns whose value under `_normalize_date`, as written, differs from the stored one |
| Migrate.NormalizeRowSettled | database/migrate.py:112-137 | a second pass finds nothing to change in a normalized row |
| Migrate.NormalizeRowWritesDiffering | database/migrate.py:117-130 | a column changes only when it is a date column whose normalized value differs, and a date column ends up NULL or passing the check |
| Migrate.NormalizeRowsWellFormed | database/migrate.py:133-136 | normalizing keeps the table well formed: the key column is no date column and no column is added |
| Migrate.NormalizeKeyed | database/migrate.py:112-137 | the row loop normalizes every keyed row with `_normalize_date` as written and counts the rows it changes |
| Migrate.NormalizeStep | database/migrate.py:112-137 | one pass of the loop normalizes one more row with `_normalize_date` as written and reports whether it changed |
| Migrate.CountChanged | database/migrate.py:112-137 | over the rows with a NULL `job_id`, the loop counts the rows whose dates `_normalize_date`, as written, would change |
| Migrate.NormalizeExistingDates | database/migrate.py:87-149 | without the `extracted_deadline` column the SELECT fails and nothing changes; otherwise every keyed row is normalized with `_normalize_date` as written, rows with a NULL id stay as they are, and the count covers every row that needed a change |
| Migrate.NormalizeTwice | database/migrate.py:87-149 | a second clean-up, with `_normalize_date` as written and with the corrected normalizer alike, changes no row and counts nothing |
| Migrate.AsWrittenNormalizer | database/migrate.py:23-84 | `_normalize_date` as written settles after one pass and writes only text passing the `%Y-%m-%d` check |
| Migrate.OneDateRow | database/migrate.py:113-130 | a row holding only `extracted_deadline` changes exactly when its normalized value differs, takes that value, and is otherwise left as it is |
| Migrate.ShortDateRowKept | database/migrate.py:113-137 | the clean-up as written leaves an `extracted_deadline` of `2024-3-5` as it is, while the corrected normalizer rewrites it to `2024-03-05` |
| Migrate.AddColumn | database/migrate.py:188 | `ALTER TABLE ... ADD COLUMN` adds the column with its default in every existing row and changes nothing else |
| Migrate.AddIfMissing | database/migrate.py:186-188 | a listed column that is already present is skipped |
| Migrate.AddMissing | database/migrate.py:185-193 | exactly the missing listed columns are added; the others keep their default and every row keeps its values |
| Migrate.AddMissingPresent | database/migrate.py:185-186 | when every listed column is present the migration changes nothing |
| Migrate.MigrateTwice | database/migrate.py:152-205 | running the migration a second time changes nothing |
| Migrate.MigrateDatabase | database/migrate.py:171-193 | the column loop adds the missing columns of the list with their defaults |
| JobDb.BaseColumns | database/models.py:4-22 | the created table has the fifteen columns `add_job` writes, among them `job_id`, `last_updated`, `fit_score` and `application_status` |
| JobDb.Initial | database/job_db.py:45-50 | a fresh table is well formed and holds no row |
| JobDb.NewRow | database/job_db.py:62-84 | the inserted row has exactly the table's columns |
| JobDb.Add | database/job_db.py:57-88 | `INSERT OR IGNORE` keeps the table well formed and its columns unchanged |
| JobDb.Insert | database/job_db.py:63-85 | a bound row goes under its key unless that is taken, or apart when the key is NULL |
| JobDb.InsertOutcome | database/job_db.py:63-85 | an insert succeeds exactly when the key is NULL or free, and a failed insert changes nothing |
| JobDb.AddOutcome | database/job_db.py:57-88 | `add_job` fails exactly when a value cannot be bound or the key is taken, and then nothing changes |
| JobDb.AddKeepsRows | database/job_db.py:63-85 | existing rows are never touched, and a successful insert adds exactly one row |
| JobDb.Update | database/job_db.py:91-119 | `update_job` succeeds exactly when there are fields to set, every one is a column whose value binds, and the row exists; a failure changes nothing, and the keys and the unkeyed rows never change |
| JobDb.UpdatedRows | database/job_db.py:97-116 | every other row is kept; on the updated row each column takes its non-`None` value from the data, `last_updated` takes the timestamp, and the rest is kept |
| JobDb.UpdatedRow | database/job_db.py:107-113 | the written row has the same columns and key; each column is the data's non-`None` value, the timestamp for `last_updated`, or the old value |
| JobDb.UpdateIgnoresJobId | database/job_db.py:100 | a `job_id` key in the data makes no difference |
| JobDb.UpdateIgnoresNone | database/job_db.py:100 | a key mapped to `None` is the same as a key left out |
| JobDb.Lookup | database/job_db.py:122-134 | `get_job` finds a row exactly when the key is stored, and the row holds that key |
| JobDb.AddThenGet | database/job_db.py:57-134 | a row inserted under a free key reads back as inserted, with the timestamp, the status given or `new`, and the column defaults elsewhere |
| JobDb.AddIgnoresOtherKeys | database/job_db.py:68-84 | keys outside the fifteen inserted columns make no difference to `add_job` |
| JobDb.AddTwice | database/job_db.py:63 | a second insert of the same keyed job is ignored and changes nothing |
| JobDb.FitScoreUpdated | database/job_db.py:190-192 | `update_fit_score` keeps the table well formed |
| JobDb.FitScoreOnly | database/job_db.py:190-192 | it succeeds exactly when the row exists and the score is not `None` and binds; only `fit_score` and `last_updated` change |
| JobDb.CheckedStatus | database/job_db.py:197-200 | the stored status is always valid; it is the one given exactly when that is valid, `new` otherwise |
| JobDb.StatusUpdated | database/job_db.py:195-201 | `update_status` keeps the table well formed |
| JobDb.StatusAlwaysValid | database/job_db.py:195-201 | it succeeds exactly when the row exists, and the stored status is always valid |
| JobDb.SelectedOrphans | database/job_db.py:146-160 | the unkeyed rows returned are exactly those matching the filters |
| JobDb.NoFilterSelectsAll | database/job_db.py:146-160 | without filters every row comes back |
| JobDb.NullScoreExcluded | database/job_db.py:149-155 | a minimum score excludes every row whose score is NULL, and a non-empty status filter keeps only rows with that status |
| JobDb.ExpireRow | database/job_db.py:171-183 | after the UPDATE a row is no longer eligible, only its status may change, a past deadline ends up `expired` unless the status is NULL, and an ineligible row is unchanged |
| JobDb.Expire | database/job_db.py:166-187 | `mark_expired` updates every row that way and returns the number of eligible rows |
| JobDb.NoneEligibleAfterExpire | database/job_db.py:171-183 | no row is left eligible after expiring |
| JobDb.ExpireTwice | database/job_db.py:166-187 | a second `mark_expired` with the same threshold changes nothing and returns 0 |
| JobDb.CollectFields | database/job_db.py:97-102 | the loop over the data collects every key but `job_id` whose value is not `None` |
| JobDb.SelectedKeyList | database/job_db.py:159-160 | the keys of the selected rows, each once |
| JobDb.SelectKeyed | database/job_db.py:159-160 | each selected keyed row comes back exactly once |
| JobDb.JobTable.constructor | database/job_db.py:45-54 | `init_database` creates the empty table |
| JobDb.JobTable.AddJob | database/job_db.py:57-88 | the table after `add_job`, and its result, are those of the insert |
| JobDb.JobTable.UpdateJob | database/job_db.py:91-119 | the table after `update_job`, and its result, are those of the update |
| JobDb.JobTable.GetJob | database/job_db.py:122-134 | `get_job` reads the row stored under the key |
| JobDb.JobTable.GetAllJobs | database/job_db.py:137-163 | the selected keyed rows, each once, come first, then the selected unkeyed rows in stored order |
| JobDb.JobTable.MarkExpired | database/job_db.py:166-187 | the threshold is the one given when non-empty, else today; the table and the count are those of the expiry |
| JobDb.JobTable.UpdateFitScore | database/job_db.py:190-192 | `update_fit_score` is an update of `fit_score` alone |
| JobDb.JobTable.UpdateStatus | database/job_db.py:195-201 | `update_status` stores the checked status |
| Cli.AnyTextIff | main.py:106-111 | the text test holds exactly when some listed field is present and not `None` or blank |
| Cli.AnyFlagIff | main.py:125 | the flag test holds exactly when some listed flag is truthy |
| Cli.NeedsLlmProcessing | main.py:103-128 | `_needs_llm_processing`: no enriched text field holds a non-blank string and no enriched flag is truthy; `Cli.NeedsIff` states it field by field |
| Cli.NeedsIff | main.py:103-128 | a job needs processing exactly when all four enriched text fields are missing, `None` or blank and both enriched flags are falsy |
| Cli.FalseFlagStillNeeds | main.py:119-128 | a flag stored as `False` or 0 does not mark an unprocessed job processed |
| Cli.EnrichedValueMarksProcessed | main.py:113-128 | one non-blank enriched text field or one truthy flag marks the job processed |
| Cli.OtherKeysIrrelevant | main.py:113-122 | fields outside the six enriched ones have no effect on the decision |
| Cli.DbJobAsWritten | main.py:293-314 | `db_job` as the code builds it, with both separate-application flags defaulting to `False`; `Cli.FlagsResetAsWritten` shows what that does to stored flags |
| Cli.DbJob | main.py:293-314 | the corrected `db_job`: the same keys, with a missing flag left `None` so that the stored value survives; `Cli.EnrichedFieldsKept` proves that |
| Cli.DbJobKeysListed | main.py:293-314 | the row built for the database carries the status, the score, both flags and all four enriched text fields |
| Cli.Preserved | main.py:323-330 | only the application status and the score are ever preserved |
| Cli.SyncStep | main.py:286-345 | one job never changes the columns and counts at most once; a job whose id is a list or a dict raises, stops the loop and changes nothing more |
| Cli.SyncStepFnSpec | main.py:286-345 | the loop body's specification is the step with the counts added up, and an aborted run stays aborted |
| Cli.UpdateDatabase | main.py:274-358 | the new table and both counts are the merge of every job, followed by marking expired jobs; a raised error returns (0, 0) and keeps the rows already written |
| Cli.MergeJobs | main.py:286-345 | the loop over the jobs computes exactly the fold of the step over them, stopping at the first error |
| Cli.MergeJob | main.py:287-345 | one pass of the loop body on the live table agrees with the step: an id-less job is skipped, a known id is updated without its preserved fields, an unknown id is added |
| Cli.IdlessJobsSkipped | main.py:287-290 | jobs without a truthy id change nothing and count nothing |
| Cli.CountsBounded | main.py:283-345 | the counts only grow, and each job adds at most one to their sum |
| Cli.KnownIdUpdated | main.py:316-341 | a job whose id was stored at the start is never added, no row appears or disappears and every other row is untouched |
| Cli.KnownStep | main.py:316-341 | a known job is an `update_job` of the built row minus the preserved fields: each column gets the job's non-`None` value, `last_updated` the time, and keeps its value otherwise |
| Cli.UnknownIdAdded | main.py:342-345 | a job whose id was not stored is never counted as updated, and every stored row stays as it was |
| Cli.UserStatusPreserved | main.py:324-326 | a stored status that is set and not `new` survives the merge |
| Cli.ScorePreserved | main.py:327-329 | a stored score survives when the scraped job has none |
| Cli.FlagsResetAsWritten | main.py:311-313 | as written, merging a known job that carries no flags stores `False` in the flag, whatever enrichment had stored there |
| Cli.FlagDefaulted | main.py:311-313 | as written, a flag the job lacks is built as `False` |
| Cli.EnrichedFieldsKept | main.py:293-341 | with missing flags built as `None`, an enriched field the scraped job lacks keeps its stored value |
| Cli.CollectRowUpdate | main.py:441-452 | the loop over a row's cells builds exactly the row's update |
| Cli.ImportFromCsv | main.py:410-475 | a missing file returns (0, 0) and changes nothing; otherwise the table and both counts are the fold of the row rule over the rows |
| Cli.ImportOne | main.py:426-468 | one pass of the row loop on the live table agrees with the row rule |
| Cli.ApplyRowUpdate | main.py:455-463 | an `UPDATE` that takes effect counts as updated; one that does not counts as an error and changes nothing |
| Cli.ImportRowApplies | main.py:441-463 | a row with a stored id and something to import is an `UPDATE` of that row |
| Cli.RowWithoutKnownId | main.py:427-438 | a row without an id, with a blank one, or with one the table does not hold counts as an error and changes nothing |
| Cli.ImportCounted | main.py:419-468 | each row adds at most one to the updated and error counts together |
| Cli.ImportedRowApplied | main.py:455-460 | a row counted as updated names a stored row, and its `UPDATE` took effect |
| Cli.RowUpdateCell | main.py:441-452 | a cell is imported exactly when it is not the id, not blank, and (for the score) readable as a float; text is stored stripped, the score as the float read |
| Cli.ImportedCellsStored | main.py:441-460 | after an imported row each imported cell is stored stripped (the score as its float) and every other column keeps its value |
| Cli.BadScoreSkipped | main.py:446-450 | a score `float()` rejects is left out, and the rest of the row is still imported |
| Cli.ImportRow | main.py:426-468 | one row never changes the columns, and adds at most one to the updated and error counts together |
| IncrementalProcessing.Pending | main.py:139-143 | the pending jobs are never more than the listed ones |
| IncrementalProcessing.PendingIff | main.py:140-143 | a job is pending exactly when it is listed and still needs processing |
| IncrementalProcessing.PendingKeepsNeeding | main.py:140-143 | when every listed job needs processing, all of them are kept, in order |
| IncrementalProcessing.Limited | main.py:147-148 | no limit or a zero limit keeps every job; a positive limit keeps the first `limit`; a negative one drops that many from the end; the result is always a prefix |
| IncrementalProcessing.SelectionNeedsProcessing | main.py:139-148 | with `skip_processed`, every job the loop reaches is a listed job that still needs processing |
| IncrementalProcessing.NegativeLimitDropsLast | main.py:147-148 | a limit of -1 leaves out the last job |
| IncrementalProcessing.AsBool | main.py:181-184 | turning a flag into a boolean keeps the same keys |
| IncrementalProcessing.WithMaterials | main.py:186-187 | joining the materials list keeps the same keys |
| IncrementalProcessing.FilteredDetails | main.py:167-172 | only the ten detail fields are kept from the model's answer |
| IncrementalProcessing.JobUpdate | main.py:210-218 | the update names only the table's nineteen editable columns |
| IncrementalProcessing.ProcessJobsIncrementally | main.py:131-237 | every stored row is listed once; the new table and the count are the loop over the selection (pending jobs if asked, then the limit) |
| IncrementalProcessing.EveryRowSelected | main.py:137 | without filters every stored row is listed |
| IncrementalProcessing.AllOrphansSelected | main.py:137 | without filters every row stored without a key is listed, in order |
| IncrementalProcessing.ProcessJobs | main.py:154-230 | the loop on the live table computes exactly the fold of the per-job step |
| IncrementalProcessing.ProcessStep | main.py:155-230 | one job of `process_jobs_incrementally`: an error skips it, a non-empty update is saved and counted whether or not `update_job` reports a changed row; `IncrementalProcessing.ProcessOne` proves the loop body agrees with it |
| IncrementalProcessing.ProcessOne | main.py:155-230 | one pass on the live table agrees with the step: an error or an empty update changes nothing, an update is saved and counted |
| IncrementalProcessing.GatheredKeysAreColumns | main.py:161-218 | everything gathered for a job is an editable column, so the final filter drops nothing |
| IncrementalProcessing.GatheredKeys | main.py:161-208 | a job's update names only detail fields, the deadline, or the three classification columns |
| IncrementalProcessing.FieldsListed | main.py:167-171 | every detail field and every classification column is an editable column |
| IncrementalProcessing.ClassificationKeys | main.py:201-208 | the classification adds only `field`, `level` and `position_type` |
| IncrementalProcessing.DetailsKeys | main.py:163-188 | the details answer contributes only detail fields |
| IncrementalProcessing.ResearchAreasTouchOnlyRequirements | main.py:174-179 | folding in the research areas changes no field but the requirements |
| IncrementalProcessing.MaterialsTouchOnlyMaterials | main.py:186-187 | joining the materials changes no other field |
| IncrementalProcessing.FlagsAreBooleans | main.py:181-184 | a flag the model gave is stored as its truth value, and a flag it did not give stays absent |
| IncrementalProcessing.ResearchAreasFolded | main.py:174-179 | a list of research areas is joined with ", " and appended to the requirements after a new line, or stands in for them when there are none |
| IncrementalProcessing.DeadlineOnlyWhenChanged | main.py:191-195 | a deadline is written exactly when the parsed text is not empty and differs from the stored one, and it is the parsed text |
| IncrementalProcessing.FieldKeptOverFocus | main.py:203-204 | a field already taken from the details is not replaced by the classified focus |
| IncrementalProcessing.FailedJobSkipped | main.py:228-230 | a job whose processing raises changes nothing and is not counted |
| IncrementalProcessing.CountedWithoutKey | main.py:221-223 | a job with a non-empty update is counted even when `update_job` cannot match its row |
| IncrementalProcessing.ProcessedBounded | main.py:152-223 | the count never exceeds the number of selected jobs |
| JoeScraper.GenerateJobId | scraper/joe_scraper.py:37-46 | `generate_job_id`: the MD5 digest of the institution, the title and the optional extra text joined by bars; `JoeScraper.KeyInjective` and `JoeScraper.BarsCollide` state when two postings collide |
| JoeScraper.KeyInjective | scraper/joe_scraper.py:37-46 | when neither institution nor title holds a bar, the hashed text determines the institution, the title and the extra data, an empty extra counting as none |
| JoeScraper.BarsCollide | scraper/joe_scraper.py:40 | a bar inside a name makes two different postings hash the same text |
| JoeScraper.Field | scraper/joe_scraper.py:70-80 | every field read from a row is stripped |
| JoeScraper.JobIdAsWritten | scraper/joe_scraper.py:70-86 | the job id as written: the stripped `str()` of the `jp_id` cell, which is `"nan"` for an empty cell, so the generated id is never used for it |
| JoeScraper.JobId | scraper/joe_scraper.py:70-86 | the corrected job id: the stripped `jp_id` when it is not blank, the generated id otherwise; `JoeScraper.BlankIdGenerated` and `JoeScraper.PresentIdKept` state both cases |
| JoeScraper.BlankIdsCollide | scraper/joe_scraper.py:70-84 | as written, an empty `jp_id` cell reads as `"nan"`, so every posting without one gets the id `"nan"` |
| JoeScraper.BlankIdGenerated | scraper/joe_scraper.py:83-86 | with empty cells read as empty, a missing, empty or blank `jp_id` falls back to the hash of institution, title and posting date |
| JoeScraper.PresentIdKept | scraper/joe_scraper.py:83-84 | a non-blank `jp_id` is the job id, stripped |
| JoeScraper.ParseRow | scraper/joe_scraper.py:88-101 | a parsed job has exactly the id, `contact_info` and the ten keys copied from columns |
| JoeScraper.ParsedFieldsStripped | scraper/joe_scraper.py:70-101 | every field of a parsed job is a string: each copied field is its column's stripped text, `contact_info` is empty and the id is the chosen one |
| JoeScraper.ParsedColumns | scraper/joe_scraper.py:71-80 | each copied key holds its column's stripped text |
| JoeScraper.ReservedKeysUnmapped | scraper/joe_scraper.py:89-96 | the id and `contact_info` are not copied from any column |
| JoeScraper.ParseJobListings | scraper/joe_scraper.py:65-106 | one job per row, in row order, each the row's parse |
| JoeScraper.IdentifyNewPostings | scraper/joe_scraper.py:119-137 | the result is the partition into new and known jobs, or the `TypeError` an unhashable id raises |
| JoeScraper.PartitionComplete | scraper/joe_scraper.py:126-134 | together the two lists are a rearrangement of the scraped jobs |
| JoeScraper.PartitionSorted | scraper/joe_scraper.py:130-134 | the new list holds only new jobs and the other list only jobs that are not new |
| JoeScraper.NewIff | scraper/joe_scraper.py:130-134 | a scraped job is in the new list exactly when its id is truthy and unknown, and in the other list exactly when it is not |
| JoeScraper.IdlessJobKnown | scraper/joe_scraper.py:130-134 | a job without an id is never new |
| Webapp.AllowedFile | webapp/app.py:67-68 | `allowed_file`: the name has a dot and its lower-cased extension is an allowed one; `Webapp.AllowedFileIff` states the accepted names |
| Webapp.AllowedFileIff | webapp/app.py:67-68 | a file name is accepted exactly when the text after its last dot, lower-cased, is `pdf`, `doc`, `docx` or `txt` |
| Webapp.LastDotCut | webapp/app.py:68 | `rsplit('.', 1)` cuts at the last dot |
| Webapp.NoDotRefused | webapp/app.py:68 | a name without a dot is refused |
| Webapp.FilterJobs | webapp/app.py:141-159 | a filter that does not raise keeps at most the jobs it was given |
| Webapp.FilterJobsKeeps | webapp/app.py:141-159 | a filter succeeds exactly when its test succeeds on every job, and then keeps exactly the jobs that pass |
| Webapp.NullFieldFails | webapp/app.py:141-142 | as written, one stored row whose `field` is NULL makes every field filter fail, so the handler at lines 182-188 returns an error response |
| Webapp.SearchNeverFails | webapp/app.py:152-159 | on text or NULL columns the search never raises |
| Webapp.FilterListing | webapp/app.py:141-159 | the corrected filters of `/api/jobs`, a NULL column read as `''`; `Webapp.FilterListingKeeps` states what they keep |
| Webapp.FilterListingKeeps | webapp/app.py:141-150 | with NULL read as empty text, the field, level and track filters never fail on stored rows, and keep exactly the jobs whose column, lower-cased, equals each given parameter lower-cased |
| Webapp.SearchHitIff | webapp/app.py:152-159 | a job passes the search exactly when one of title, institution, description and field, lower-cased, contains the lower-cased text |
| Webapp.TrackOf | webapp/app.py:645-649 | a job's listed track is never empty and already lower-case |
| Webapp.Insert | webapp/app.py:650 | one step of sorting: the list stays strictly increasing and gains exactly the new track |
| Webapp.PositionTracks | webapp/app.py:640-658 | the list fails exactly when a track raises, and otherwise is strictly increasing and holds exactly the distinct stripped lower-cased tracks |
| Webapp.TrackSetFails | webapp/app.py:644-649 | a job that raises makes the whole request fail |
| Webapp.TrackSetIff | webapp/app.py:644-649 | a track is listed exactly when some job's stripped, lower-cased track is it |
| Webapp.SortedDistinct | webapp/app.py:650 | a sorted track list has no repeats |
| Webapp.SortedUnique | webapp/app.py:650 | a sorted list is determined by its elements, so the sorted track list has one value only |
| Webapp.TrackFilterScenario | tests/test_filters.py:14-29 | asking for track "Junior Tenure-Track" among jobs 1 and 3 (junior) and 2 (senior) returns jobs 1 and 3 |
| Webapp.ScenarioTracks | tests/test_filters.py:34-38 | both spellings of "junior tenure-track" read as the same track, and "teaching" as itself |
| Webapp.TrackListFirst | tests/test_filters.py:34-35 | the first job alone lists "junior tenure-track" |
| Webapp.TrackListFirstTwo | tests/test_filters.py:34-36 | the first two jobs list "junior tenure-track" and "teaching" |
| Webapp.TrackListNamed | tests/test_filters.py:34-37 | the three named jobs list only two distinct tracks |
| Webapp.TrackListSet | tests/test_filters.py:34-40 | a `None` track and a missing track add nothing to the list |
| Webapp.TrackListScenario | tests/test_filters.py:32-46 | those five jobs list exactly "junior tenure-track" then "teaching" |
| WebEnrichment.Meaningful | webapp/app.py:946-951 | the filtered details are exactly the answer's detail fields whose value is meaningful, unchanged |
| WebEnrichment.WithLevels | webapp/app.py:953-959 | normalizing the level changes no key and no field but the level |
| WebEnrichment.MergeDetails | webapp/app.py:961-973 | the loop over the filtered details, in any key order, gives the merge of every key, or the error of a key that raises |
| WebEnrichment.MergedOnStep | webapp/app.py:961-973 | merging one more key adds its write, if it has one, to the writes so far |
| WebEnrichment.LevelJoined | webapp/app.py:1026-1028 | joining a level list changes no key and no field but the level; the details' level at lines 976-977 is joined the same way |
| WebEnrichment.Payload | webapp/app.py:1030-1038 | the payload is exactly the update's web columns whose value is meaningful, unchanged |
| WebEnrichment.BuildPayload | webapp/app.py:939-1038 | the body of the `try` up to the write gives the payload of the job for the row `get_job` returned, or the error it raised |
| WebEnrichment.ProcessJobBatchWeb | webapp/app.py:896-1051 | the batch raises the exception of the deadline scan, and then leaves the table as it was, exactly when the scan raises; otherwise the new table and both counters are the fold of the per-job step over the batch |
| WebEnrichment.ProcessJobsWeb | webapp/app.py:935-1049 | the new table and both counters are the fold of the per-job step over the batch, each job reading the table as the earlier ones left it |
| WebEnrichment.CollectDeadlineInputs | webapp/app.py:916-922 | the loop that builds `deadline_inputs` gives the scan's list, or the exception of the first job that raises in it |
| WebEnrichment.ScanFails | webapp/app.py:916-922 | the scan fails exactly when it had already failed or one of the remaining jobs raises: a truthy deadline without `len`, a short one that is not text, or a chosen job without a `job_id` key |
| WebEnrichment.ScanChosen | webapp/app.py:918-922 | every pair the scan sends carries a truthy deadline longer than 50, or text holding one of the words until, by, before or extended |
| WebEnrichment.DeadlineInputsHold | webapp/app.py:916-922 | `deadline_inputs` is an error exactly when some job raises in the scan; otherwise it holds only chosen deadlines, at most one per job |
| WebEnrichment.NumericDeadlineEndsBatch | webapp/app.py:917-920 | a job whose deadline is a non-zero number makes `len` raise, so the whole batch fails and no job of it is written |
| WebEnrichment.BatchStep | webapp/app.py:938-1049 | one job of `_process_job_batch_web`: a non-empty payload is written and counted as processed, an empty payload or a raise counts an error; `WebEnrichment.ProcessJobWeb` proves the loop body agrees with it |
| WebEnrichment.ProcessJobWeb | webapp/app.py:938-1049 | one pass of the loop on the live table agrees with the step |
| WebEnrichment.WriteJob | webapp/app.py:1040-1049 | a non-empty payload is written and the job counted as processed; an empty payload or a raise counts as an error and changes nothing |
| WebEnrichment.DetailsKeepStored | webapp/app.py:961-991 | without force the details never write a field whose stored value is meaningful, except the requirements, the materials and the two flags |
| WebEnrichment.MergedKeepsStored | webapp/app.py:968-973 | without force the loop writes no stored meaningful field other than requirements and materials |
| WebEnrichment.FinishedKeepsOut | webapp/app.py:976-991 | the steps after the loop add no other field |
| WebEnrichment.ForceWritesEvery | webapp/app.py:963-967 | under force every filtered detail is written, a list of materials joined with ", " |
| WebEnrichment.RequirementsAppended | webapp/app.py:968-971 | without force new requirements text is appended to stored requirements after a new line, unless the stored text already contains it |
| WebEnrichment.MaterialsReplaced | webapp/app.py:968-973 | without force meaningful materials from the model replace what the table holds |
| WebEnrichment.NoRowNoDetails | webapp/app.py:942-962 | a job whose row `get_job` cannot find makes any detail raise, with or without force |
| WebEnrichment.ClassificationFillsOnlyEmpty | webapp/app.py:1006-1014 | without force the classification leaves a column alone when the table holds a meaningful value there or the update already set it |
| WebEnrichment.ForceClassification | webapp/app.py:1006-1014 | under force a meaningful classification value always lands in its column |
| WebEnrichment.DefaultTrack | webapp/app.py:1022-1023 | a job the track evaluator did not answer for, and without a stored track, is put in "other academia" |
| WebEnrichment.DeadlineWrittenIff | webapp/app.py:993-1000 | the deadline is written exactly when the batch's or the single parse is truthy, meaningful and differs from the stored text, and it is that parse |
| WebEnrichment.TrackedJobLost | webapp/app.py:1016-1049 | as written, every job the track evaluator answered for raises `ImportError`, is counted as an error and saves nothing |
| WebEnrichment.TrackedRestFails | webapp/app.py:1019 | as written, the steps after the details always raise for such a job |
| WebEnrichment.TrackedJobSaved | webapp/app.py:1016-1041 | with the normalization in place, a meaningful normalized track is part of the saved payload |
| WebEnrichment.CountedWithoutId | webapp/app.py:1022-1042 | a job without id, deadline, title or track counts as processed for its default track, though `update_job` saves nothing |
| WebEnrichment.NoIdPayload | webapp/app.py:939-1038 | such a job's payload is the default track alone |
| WebEnrichment.NoIdFrom | webapp/app.py:939-1038 | with the empty row `get_job` is not asked for, that payload is the default track alone |
| WebEnrichment.NoIdDetails | webapp/app.py:944-945 | a job without an id gets no details |
| WebEnrichment.NoIdRest | webapp/app.py:993-1038 | for such a job deadline and classification add nothing and the track is the default one |
| WebEnrichment.EveryJobCounted | webapp/app.py:916-1051 | the batch fails exactly when some job raises in the deadline scan; the loop, and so a batch that does not fail, counts every job exactly once, as processed or as an error |
| WebMatching.SelectJobs | webapp/app.py:322-331 | the selection loop keeps exactly the jobs with an id that are forced or miss one of the two scores, in batch order |
| WebMatching.Ids | webapp/app.py:356-360 | the ids of the finished evaluations are the ids they were submitted under, in finishing order |
| WebMatching.MatchJobBatchWeb | webapp/app.py:304-434 | the new table and the result are the batch's fold, with the counts as the source keeps them: nothing when no job needs a score, the `TypeError` of an unhashable id, or the fold of every finished evaluation |
| WebMatching.BuildJobMap | webapp/app.py:345-352 | the loop builds `job_map`, or raises for an id that cannot be hashed |
| WebMatching.ScoreCompletions | webapp/app.py:358-432 | the loop over the finished evaluations is the fold of the per-evaluation step on the live table, the error of a log line whose title slice raises included |
| WebMatching.CompleteOne | webapp/app.py:360-432 | one finished evaluation on the live table agrees with the step: an id without a job is skipped, otherwise the job is scored, stamped, saved and counted as the source counts it |
| WebMatching.CommitJob | webapp/app.py:405-432 | the `try` around the save leaves the table and the counts of the as-written commit: `update_job`, the saved or error count, the sample, and one more error when the title the log line slices is neither text nor a list |
| WebMatching.TallyJob | webapp/app.py:414-432 | a save counts the job as saved, keeps its sample while fewer than five are held, and counts one error as well when the title the log line slices is neither text nor a list (a NULL title); a refused save counts an error |
| WebMatching.SaveJob | webapp/app.py:406-414 | the save is an `update_job` of the payload, which only a string id can match |
| WebMatching.ScoreJob | webapp/app.py:371-390 | updating the job in place gives the model's scores, or the fallback when the evaluation failed |
| WebMatching.ApplyFallback | webapp/app.py:378-390 | the in-place heuristic branch gives the fallback job |
| WebMatching.SelectedIff | webapp/app.py:322-331 | a job is selected, as often as the batch holds it, exactly when it has an id and is forced or misses a score |
| WebMatching.UpToDateBatch | webapp/app.py:333-334 | a batch with no job to score changes nothing and reports `(0, 0, [], 0)` |
| WebMatching.JobMapFails | webapp/app.py:347-350 | an earlier unhashable id makes the whole map raise |
| WebMatching.JobMapIff | webapp/app.py:345-352 | `job_map` is built exactly when every id is hashable; then it holds exactly the submitted ids, each job under its own id, and the last job with a repeated id |
| WebMatching.TaskIdsTruthy | webapp/app.py:349-352 | only ids that are present and truthy are submitted |
| WebMatching.TaskIdsCount | webapp/app.py:347-352 | when every selected job has an id, one task is submitted per job |
| WebMatching.LlmScoresWritten | webapp/app.py:371-377 | the model's two scores are rounded to two decimals and its reasonings and alignment copied; no other field changes |
| WebMatching.FallbackText | webapp/app.py:380-390 | a failed evaluation takes the rule-based fit score, keeps a stored fit reasoning and difficulty reasoning even under force, uses the default texts only where they are absent, and changes no other field |
| WebMatching.FallbackDifficulty | webapp/app.py:384-385 | after a failed evaluation a missing difficulty becomes 50.0; without force a stored one is kept; under force a falsy one becomes 50.0 and a truthy one is kept |
| WebMatching.StampsWritten | webapp/app.py:392-415 | every evaluated job carries the batch's timestamp and portfolio hash, and a saved row carries both stamps and the fit score when it is not `None` |
| WebMatching.StepIsCommit | webapp/app.py:360-432 | a finished evaluation whose id holds a job commits that job, scored and stamped, as the source commits it |
| WebMatching.CommitAsWrittenHolds | webapp/app.py:405-432 | the as-written commit keeps the job under its id, takes the store the save leaves, counts as saved exactly when the save succeeded, counts once more as an error when a saved job's title cannot be sliced, and keeps the samples of the corrected commit |
| WebMatching.ScoredLoggable | webapp/app.py:371-421 | scoring and stamping keep a sliceable title, so the title slice of the log line after the save does not raise |
| WebMatching.Commit | webapp/app.py:405-432 | the corrected commit: the save of the payload, then one count as saved (with the sample while fewer than five are held) or as an error; `WebMatching.CommitHolds` states it |
| WebMatching.CommitAsWritten | webapp/app.py:405-432 | the commit as the source runs it: the corrected commit plus one more error when the save succeeded and the job's title cannot be sliced; `WebMatching.CommitAsWrittenHolds` states it |
| WebMatching.CommitHolds | webapp/app.py:405-432 | with the log line kept out of the count, a commit keeps the job under its id, takes the store the save leaves, counts as saved exactly when the save succeeded, and counts once |
| WebMatching.PayloadValues | webapp/app.py:406-412 | the payload holds both stamps, the job's two scores and its difficulty reasoning |
| WebMatching.WrittenRow | webapp/app.py:414 | a save writes each payload value that is not `None` into the row's column of that name |
| WebMatching.StepCounted | webapp/app.py:359-432 | an evaluation whose id holds a job counts it as saved or as an error, and once more as an error when it was saved and its title cannot be sliced |
| WebMatching.StepCovers | webapp/app.py:359-393 | a step leaves every job in place and non-empty, so later evaluations still find theirs |
| WebMatching.StepLoggable | webapp/app.py:371-421 | from a tally of loggable jobs a step keeps every title sliceable and its own log line does not raise |
| WebMatching.StepSamples | webapp/app.py:417-418 | one step keeps at most five samples, no more than the jobs saved |
| WebMatching.SelectedHaveIds | webapp/app.py:325-328 | every selected job has an id |
| WebMatching.CompletionsFindJobs | webapp/app.py:356-363 | when the ids finished are the ids submitted, every finished evaluation finds its job |
| WebMatching.CountedFold | webapp/app.py:359-432 | when every evaluation finds its job, each adds at least one to saved plus errors |
| WebMatching.CountedFoldLoggable | webapp/app.py:359-432 | when every evaluation finds its job and every job's title can be sliced, each adds exactly one to saved plus errors |
| WebMatching.EverySelectedJobCounted | webapp/app.py:304-434 | when every submitted task finishes once, saved plus errors is at least the number of selected jobs, and equal to it when every selected job has a title that is text or a list, or none at all |
| WebMatching.JobMapValues | webapp/app.py:345-352 | every job of `job_map` is one of the submitted jobs |
| WebMatching.SamplesBounded | webapp/app.py:417-418 | at most five samples are kept, and only samples of saved jobs |
| WebMatching.FallbacksBounded | webapp/app.py:378-380 | at most one fallback per finished evaluation |
| WebMatching.SavedJobCountedTwice | webapp/app.py:414-432 | as written, a saved job whose title slice raises (a `None` title) is counted both as saved and as an error |

## Left out

- FitCalculator.RankJobs: any score that is not a number makes the ranking of two or more jobs fail with the `TypeError` of `sorted`. Python's `sorted` also orders keys that are all text or all lists, and raises only when it compares two keys of types it cannot order; that wider behaviour is not modelled. The only caller, `main.py:253-264`, passes numeric scores.
- FitCalculator.RankJobsSpec: states the same narrower failure condition as `FitCalculator.RankJobs`: every non-numeric score is a `TypeError`, where Python raises only for a pair of keys it cannot order.
- FitCalculator.FitScore: the final `round(…, 2)` is not modelled. The score is the exact real-valued weighted sum, and its bounds are proved on that sum.
- Floating-point numbers are reals. When the source turns a number into text, or parses a text as a number, `float()` and `repr()` are parameters: a parse oracle, and the text a `Num` value carries. Python's `round(x, 2)` is a parameter in the batches that store rounded scores.
- Job ids that are not strings (a number read back from the table, say) find no row. The model's `WHERE job_id = ?` compares only text ids. SQLite's numeric comparisons are not modelled.
- JobDb.JobTable.GetAllJobs: `ORDER BY` in `get_all_jobs` is not modelled, and neither is the sort of the web job list. A listing is any order of the stored rows.
- IncrementalProcessing.ProcessJobsIncrementally: the order in which the rows are listed is the ghost out-parameter `listed`. The method promises that `listed` holds every stored row, not one fixed order.
- Cli.UpdateDatabase and Cli.MergeJob merge with the corrected `DbJob`, which keeps the stored separate-application flags. The as-written defaulting to `False` is `Cli.DbJobAsWritten`; see the findings.
- A CSV row with more cells than headers is not modelled. `DictReader` would file the extra cells under a `None` key, and the model's rows are maps from header to cell.
- The `raw_data` column and the spreadsheet row it serialises are not modelled.
- The prompt texts are constants whose wording is not modelled. `build_joint_prompt`'s text layout is not modelled beyond the fields it reads.
- The caller's job dictionaries are values. The in-place updates `process_jobs_incrementally` and the batches make to them are not observable in the model. The table is the only shared state.
- `execute_llm_tasks`, `_get_executor` and their thread pool are not part of this model. A batch receives the results its tasks returned. In the matching batch, the completions come as a sequence in finish order.
- The source files this model follows come from more than one revision of the repository. Several names they import or call are defined in none of them: `_clean_llm_json` and `execute_llm_tasks` (imported at `matcher/job_assessor.py:8`, absent from `processor/llm_parser.py`), `_calculate_fit_score_rule_based` (imported at `webapp/app.py:381`, absent from `matcher/fit_calculator.py`), `extract_job_details_batch`, `parse_deadlines_batch` and `classify_position_batch` (imported at `processor/__init__.py:8-10` and `webapp/app.py:21-23`), and a `force` parameter of `process_jobs_incrementally`, which `tests/test_force_process.py` passes but `main.py:131` does not take. The model assumes each of these exists in the revision that runs, and takes it as a parameter or an oracle.
- The import of `_calculate_fit_score_rule_based` at `webapp/app.py:381` sits outside the `try` of the matching loop. If the name is missing, the first fallback raises `ImportError` out of the whole batch. The model assumes the import succeeds.
- `_normalize_position_track_for_ambiguous_title` is not part of this model: no source file shown defines it. It is the `normalize` parameter of the enrichment batch. Whether the revision `webapp/app.py` runs against defines it is not known; the fifth finding holds only for the `matcher/job_assessor.py` shown.
- The log line after a save in the matching batch formats the fit and difficulty scores with `%.2f` lazily, in the logging handler. A score that cannot be formatted makes the handler print an error report, which is not modelled; it never reaches the `try`, so it is not counted.
- `_calculate_fit_score_rule_based` in the web application is not part of this model. It is the `heuristic` parameter of the matching fallback.
- `_clean_llm_json` and `json.loads` are decoding oracles: a function from response text to the decoded value.
- The OpenAI, Anthropic and DeepSeek clients, `_rate_limit` and the API keys are not modelled. A model call is a function from the prompt to an optional response.
- `datetime.now()`, MD5 and SHA-256 are parameters.
- PDF extraction, file reading and writing, the network, and the checks that the database file exists are not modelled. Each appears as its outcome: a text, a flag or an error.
- Reading the spreadsheet and CSV files with pandas is not modelled. The rows come in as cells.
- The loop of `api_process_jobs` over the batches is not modelled. A batch whose deadline scan raises ends that loop, and the later batches are not run.
- Flask routing, the JSON responses, `operation_progress`, upload saving and file download are not modelled, beyond the filters, the track list and the file-name test.
- Migrate.MigrateDatabase models only the column loop of `migrate_database`. The check that the database file exists is not modelled. The closing call to `normalize_existing_dates` is the separate method `Migrate.NormalizeExistingDates`. Running the file as a script is not modelled.
- Python's equality between numeric hash keys is not modelled. Ids are compared as values.
- StringUtil.Lower: lower-cases ASCII letters only. Python's `str.lower` maps every Unicode upper-case letter. Every filter, search, file-name and label test built on it inherits this: `Webapp.FilterListing`'s field, level and track filters and its search, `Webapp.AllowedFile`, the level tokens of `LevelNormalizer`, the area matching of `FitCalculator`, the track test of `JobAssessor`, the deadline words of `WebEnrichment.HasDeadlineWord` and the month names of `DateFormats`. For example `?field=ÉCONOMIE` does not match a stored `économie` in the model, while Python lower-cases `É` to `é` and matches.
- DateFormats.Strptime: reads ASCII digits and English month names only. CPython's `_strptime` builds its patterns from `\d`, which also matches other Unicode decimal digits, and its month names come from the locale; neither is modelled.
- LlmFitEvaluator.EvaluateFitAndDifficulty: the prompt is not built. `prompt_template.format(...)` at `matcher/llm_fit_evaluator.py:51` raises `KeyError`, `IndexError` or `ValueError` on a stray brace in a custom template, outside the `try`, and the model never raises there. The same holds for `LlmFitEvaluator.EvaluateFitWithLlm`, which builds its prompt the same way at `matcher/llm_fit_evaluator.py:84`.
- The iteration order of dictionaries is not modelled. A decoded object keeps its members in text order, and a dictionary built by the program is a map.
- LevelNormalizer.NormalizeLevelLabels takes the labels as text. `raw_levels` values that are not text are handled by `LevelNormalizer.RawLevels`, which the enrichment batch applies first.
- JoeScraper.ParseRow reads an empty cell as empty text in every column, which is the corrected reading. The as-written reading, `"nan"`, is modelled for the id only, in `JoeScraper.JobIdAsWritten`.
- Two writers inserting the same new id at once is not modelled, because concurrency is left out.
- The statistics average, backups, the scheduler and the helper scripts are outside the core and are not modelled.

## Findings

| source | as written | input that shows it | evidently intended | confidence | as-written member | corrected member |
|---|---|---|---|---|---|---|
| main.py:311-313 | `update_database` copies each scraped job with `requires_separate_application` and `references_separate_email` defaulting to `False`, and `update_job` writes them over the stored row | a stored job whose enrichment set `requires_separate_application` to true, scraped again (the scraper never sets these keys) | a re-scrape updates only the fields that come from the listing and keeps the enrichment's flags | medium, not executed | Cli.FlagsResetAsWritten | Cli.EnrichedFieldsKept |
| webapp/app.py:141-145 | the field and level filters of `/api/jobs` call `.lower()` on `j.get('field', '')`, and a row whose column is NULL yields `None` | `GET /api/jobs?field=Economics` with one stored job whose `field` is NULL | such a row is skipped by the filter, as the track filter and the search already do with `or ''` | high, not executed | Webapp.NullFieldFails | Webapp.FilterListingKeeps |
| database/migrate.py:46-48 | `_normalize_date` returns any text `strptime('%Y-%m-%d')` accepts unchanged, and `strptime` accepts one-digit months and days | `"2024-3-5"` is kept as `"2024-3-5"` | every normalised date is in `YYYY-MM-DD` form, e.g. `"2024-03-05"` | medium, not executed | Migrate.ShortDateKeptAsWritten | Migrate.NormalizeDateIso |
| scraper/joe_scraper.py:70 | `str(row.get('jp_id', ''))` of an empty cell is `"nan"`, which is not empty, so the fallback id is never generated | two postings whose `jp_id` cell is empty both get the id `"nan"`, and the second is dropped as a duplicate | a posting without a `jp_id` gets the id hashed from its institution, title and date | high, not executed | JoeScraper.BlankIdsCollide | JoeScraper.BlankIdGenerated |
| webapp/app.py:1019-1020 | the enrichment imports `_normalize_position_track_for_ambiguous_title` from `matcher/job_assessor.py`, which defines no such function | any job for which the track model returned a label: the import raises, the job counts as an error and none of its updates are saved | the track label is normalised, and the job's updates are saved | low, not executed; holds only if the revision `webapp/app.py` runs against is the `matcher/job_assessor.py` shown, as the source files mix revisions | WebEnrichment.TrackedJobLost | WebEnrichment.TrackedJobSaved |
| webapp/app.py:414-432 | the log line after a save slices `job.get('title', 'Unknown')`, which is `None` for a NULL title; the exception is caught after `batch_saved` was incremented | a selected job with a NULL title whose evaluation is saved: it is counted both as saved and as an error | each job is counted once, as saved or as an error | medium, not executed | WebMatching.SavedJobCountedTwice | WebMatching.CommitHolds |
