# LinkedAI core, modelled in Dafny

LinkedAI is a job-search assistant. It scrapes LinkedIn postings, embeds them in
a vector store, and answers chat questions through tool-calling agents. This
project models and verifies the deterministic core of that pipeline:

- **Search configuration** (`SearchConfig`, `searchconfig.dfy`). The `Config` record
  with its defaults and validators, and `model_post_init`, which turns the filters
  into LinkedIn's query codes (`_f_E`, `_f_TPR`, `_f_WT`, `_f_SB2`).
- **Scraping** (`Scrape`, `scrape.dfy`). The search URL, which is a
  `urlencode(..., quote_via=quote_plus)` query (`UrlCodec`, `urlcodec.dfy`); the
  job links read off a results page; the fields read off one posting, with their
  fallbacks; and the loop that scrapes at most `max_results` postings and skips
  the ones that fail.
- **Ingestion** (`Vectorize`, `vectorize.dfy`). The split of each scraped record
  into metadata, an id and a description; the `title + "\n\n" + description`
  documents; and the alignment of documents, embeddings, metadata and ids
  handed to the collection.
- **Chat history** (`ChatModels`, `chatmodels.dfy`). The role-tagged message
  union, the `ChatHistory` message log, and its projection `to_messages` to the
  chat-completion wire format.
- **Resume agent** (`Resume`, `resume.dfy`). Assembly of the resume text from a
  PDF or a text file, with every failure read as `""`, and the fallbacks applied
  to the model's match and tweak replies.

The Python semantics the core relies on are modelled in their own modules:

- `Strings`: `split`, `join`, `in`, `strip`;
- `Decimal`: `str(int)`;
- `UrlCodec`: UTF-8 and `quote_plus`, per sections 2.1 and 2.3 of RFC 3986.

Browsers, HTML, files, PDF extraction, the embedding service and the language
model are parameters of the model. A results page is the list of `href`s of its
job-card anchors. A posting page is the outcome of each of its text lookups. A
resume file is what each read of it yields. The model is a function from the
prompt's inputs to its reply.

## Model

| member | source | states |
|---|---|---|
| SearchConfig.ValidationErrors | linkedAI/scraper/data_models.py:22-37 | A configuration is refused exactly when `keywords` is empty or a supplied `time_since_post` lies outside (1, 2592000]. Each error is reported iff its cause holds. An unsupplied `time_since_post` is never checked. The keywords error comes first. |
| SearchConfig.NewConfig | linkedAI/scraper/data_models.py:22-73 | Building a `Config` fails with exactly the validation errors, or yields a new configuration holding the given fields. Its derived codes agree with its filters (`Valid`). |
| SearchConfig.NewDefaultConfig | linkedAI/scraper/data_models.py:23-41 | `Config(keywords=k)` fails iff `k` is empty, with "Keywords cannot be empty". Otherwise the defaults are location "United States", not remote, 10 results and no filter codes, and `_f_WT` is the integer 1. |
| SearchConfig.Config.constructor | linkedAI/scraper/data_models.py:22-67 | The fields are as given and the private codes start at their defaults. After `model_post_init` the configuration is `Valid`. |
| SearchConfig.Config.PostInit | linkedAI/scraper/data_models.py:60-67 | Each set filter overwrites its own code: `f_E` is the comma-joined level codes, `f_TPR` is `r<seconds>`, `f_WT` is "2" when remote, `f_SB2` is the salary code. Every other code keeps its old value. |
| SearchConfig.LevelCode | linkedAI/scraper/data_models.py:44-50 | `level_map`: entry level to executive map to the codes "1" to "5". `LevelCodesRoundTrip` shows that the codes name the levels. |
| SearchConfig.SalaryCode | linkedAI/scraper/data_models.py:51-58 | `salary_map`: the floors from 100K to 200K map to the codes "4" to "9". `SalaryCodeRoundTrip` shows that each code names its floor. |
| SearchConfig.JoinLevelCodes | linkedAI/scraper/data_models.py:61 | `",".join(level_map[l] for l in levels)`. `LevelCodesRoundTrip` reads it back as the levels, and `LevelCodesNonEmpty` shows that it is non-empty for a non-empty list. |
| SearchConfig.LevelCodesNonEmpty | linkedAI/scraper/data_models.py:60-61 | A non-empty level list gives a non-empty `f_E` code, so the query's truthiness test keeps it. |
| SearchConfig.LevelCodesRoundTrip | linkedAI/scraper/data_models.py:44-61 | The comma-joined `f_E` value of a non-empty level list reads back as that list, in order. |
| SearchConfig.SalaryCodeRoundTrip | linkedAI/scraper/data_models.py:51-58 | Each salary floor has its own one-character code, and that code names it. |
| SearchConfig.TimeRangeRoundTrip | linkedAI/scraper/data_models.py:62-63 | `f"r{t}"` reads back as `t` for every integer `t`. |
| Scrape.BuildSearchUrl | linkedAI/scraper/scrape.py:27-56 | The URL built by filling the query dictionary step by step is the specified search URL, `SearchUrl`. |
| Scrape.SearchQueryKeys | linkedAI/scraper/scrape.py:42-54 | The query of a valid configuration has the keys keywords, location, start and f_WT, in that order, then f_E, f_TPR and f_SB2, each present iff its filter is set. `f_WT` renders as "2" when remote and "1" otherwise. |
| Scrape.SearchQueryLookups | linkedAI/scraper/scrape.py:49-54 | Each optional code is found under its own key exactly when it is truthy, with its value. |
| Scrape.SearchQueryFilters | linkedAI/scraper/scrape.py:49-54 | Read back from the query: `f_E` lists the chosen levels, `f_TPR` gives the seconds, `f_SB2` names the salary. Each key is present iff its filter is set. |
| Scrape.SearchUrlRoundTrip | linkedAI/scraper/scrape.py:41-56 | The URL is the base, then "?", then a query string that decodes back, pair by pair and in order, to the UTF-8 bytes of every key and rendered value. |
| UrlCodec.UrlEncodeRoundTrip | linkedAI/scraper/scrape.py:56 | `urlencode(quote_via=quote_plus)` of a non-empty query is unambiguous: it splits back into its pairs and each part decodes to its UTF-8 bytes. |
| UrlCodec.QuotePlusRoundTrip | linkedAI/scraper/scrape.py:56 | `quote_plus` loses nothing: decoding its output gives the UTF-8 bytes of its input. |
| UrlCodec.QuoteBytes | linkedAI/scraper/scrape.py:56 | An encoded component holds only unreserved characters, `+` and `%`, so it never holds `=` or `&`. |
| Scrape.SearchUrlAsWritten | linkedAI/scraper/scrape.py:27-56 | `build_search_url` as written, reading the undeclared `_f_SB2`. `SearchUrlAsWrittenNeedsSalary` states when it raises. |
| Scrape.SearchUrlAsWrittenNeedsSalary | linkedAI/scraper/scrape.py:53 | As written, `build_search_url` raises `AttributeError` exactly when no salary is set, and otherwise returns the search URL. |
| Scrape.StripQuery | linkedAI/scraper/scrape.py:77 | `href.split("?")[0]` is the longest prefix of the href without `?`. It is either the whole href or followed by `?`. |
| Scrape.Distinct | linkedAI/scraper/scrape.py:79 | `list(set(...))` has no duplicates and holds exactly the same elements. |
| Scrape.ExtractJobLinks | linkedAI/scraper/scrape.py:59-79 | The links are exactly the stripped hrefs that are non-empty and contain "/jobs/view/", each once. There are none iff no href qualifies. |
| Scrape.ScrapeJobDetails | linkedAI/scraper/scrape.py:94-137 | A posting scrapes iff its page loads, the heading is read and a company is read by one of the two lookups. The card's link is the URL it was read from. |
| Scrape.ScrapeJobDetailsFields | linkedAI/scraper/scrape.py:100-128 | Every field of a scraped card is stripped text. The company comes from the organisation link when heading and link were both read, and from the first flavour span otherwise. Location and description fall back to "". |
| Scrape.Successes | linkedAI/scraper/scrape.py:164-170 | The cards of the links tried that scrape, in the order tried. Its lemmas `SuccessesLength`, `SuccessesInOrder` and `SuccessesMembers` state its properties. |
| Scrape.SuccessesLength | linkedAI/scraper/scrape.py:164-170 | There are never more scraped cards than links tried. |
| Scrape.SuccessesInOrder | linkedAI/scraper/scrape.py:164-170 | The cards' links are the tried links in the order they were tried, with the failures left out. |
| Scrape.SuccessesMembers | linkedAI/scraper/scrape.py:164-170 | A link has a card iff it was tried and scraping its page succeeds. |
| Scrape.ScrapeJobs | linkedAI/scraper/scrape.py:164-172 | The loop tries only `job_links[:max_results]`. Its results are the cards of those links that scrape, in link order (`Successes`), and there are at most `max_results` of them. |
| Scrape.ScrapeLinkedinJobs | linkedAI/scraper/scrape.py:140-172 | Fails iff the results page at the search URL does not load. Otherwise the links are those extracted from it, the results are the successes among the first `max_results` links, and there are at most `max_results` of them. |
| Vectorize.MetadataOf | linkedAI/scraper/vectorize.py:38-43 | The metadata dictionary of one record. Its properties are stated by `MetadataOfSpec`. |
| Vectorize.MetadataOfSpec | linkedAI/scraper/vectorize.py:38-43 | The metadata has exactly the keys title, link, location and company, holding the record's values verbatim. |
| Vectorize.JobId | linkedAI/scraper/vectorize.py:46-49 | `link.split("-")[-1]`. Its properties are stated by `JobIdSpec`. |
| Vectorize.JobIdSpec | linkedAI/scraper/vectorize.py:46-49 | The id contains no `-`. It is a suffix of the link with a `-` right before it, or the whole link when the link has no `-`. |
| Vectorize.ParseJobJson | linkedAI/scraper/vectorize.py:29-53 | Three lists as long as the input. Entry `i` of each holds record `i`'s metadata, its id and its description. |
| Vectorize.FullDescriptions | linkedAI/scraper/vectorize.py:71-74 | One document per zipped pair, as many as the shorter list, each being `title + "\n\n" + description`. It is `None` iff a zipped metadata has no title. |
| Vectorize.Embeddings | linkedAI/scraper/vectorize.py:82-84 | One vector per response element, in response order. |
| Vectorize.VectorizeJobs | linkedAI/scraper/vectorize.py:56-92 | `collection.add` receives the documents, their embeddings in order, and the metadata and ids unchanged. It fails only as the documents do. |
| Vectorize.IngestAligned | linkedAI/scraper/vectorize.py:29-92 | Parsing then vectorizing never hits a missing title. Documents, metadata and ids have one entry per record and are index-aligned with the records. |
| ChatModels.Wire | linkedAI/agents/data_models.py:45-61 | The wire dictionary always has role and content. System and user messages have nothing else. An assistant's tool_calls is present iff the list is non-empty. A tool message always has tool_call_id, and name iff the name is non-empty. |
| ChatModels.WireRoundTrip | linkedAI/agents/data_models.py:42-63 | `to_messages` keeps every message's role and fields. It loses only the difference between an empty tool-call list or name and an absent one. |
| ChatModels.WireInjective | linkedAI/agents/data_models.py:42-63 | Two messages give the same dictionary iff they agree up to an empty tool-call list or name. |
| ChatModels.ChatHistory.constructor | linkedAI/agents/data_models.py:37-40 | A new history holds one system message carrying the chat agent's prompt (linkedAI/config.py:17-26). |
| ChatModels.ChatHistory.FromMessages | linkedAI/agents/data_models.py:37-38 | A history built from messages holds them, in order. |
| ChatModels.ChatHistory.ToMessages | linkedAI/agents/data_models.py:42-63 | One dictionary per message, in history order, each the message's wire form. |
| ChatModels.ChatHistory.AppendMessage | linkedAI/agents/data_models.py:65-67 | The history grows by exactly the one message, at its end. |
| Resume.Suffix | linkedAI/agents/resume_agent.py:54 | The suffix runs from the last `.` to the end, when that dot is neither first nor last. Otherwise it is "". |
| Resume.IsPdf | linkedAI/agents/resume_agent.py:54 | `resume_path.suffix.lower() == ".pdf"`, on the suffix given by `Suffix`. |
| Resume.PageTexts | linkedAI/agents/resume_agent.py:56-60 | The page loop fails iff some page's extraction raises. Everything it collects is non-empty. |
| Resume.PageTextsContents | linkedAI/agents/resume_agent.py:57-60 | The collected texts are exactly the non-empty page texts. There are none iff no page has text. |
| Resume.TextIndices | linkedAI/agents/resume_agent.py:57-60 | The positions of the pages with a non-empty text: strictly increasing, each such page exactly once, and no other page. |
| Resume.PageTextsInOrder | linkedAI/agents/resume_agent.py:57-60 | The collected texts follow the pages with text, in page order and each once: text `j` is that of the `j`-th such page. |
| Resume.ResumeText | linkedAI/agents/resume_agent.py:47-68 | What `_load_resume` returns: "" for a missing file or a read that raises; the joined page texts for a PDF; the file's text otherwise. `ResumeTextEmpty` and `ResumeTextPages` state its properties. |
| Resume.LoadResume | linkedAI/agents/resume_agent.py:47-68 | `_load_resume` never raises, and its result is the specified resume text, `ResumeText`. |
| Resume.ResumeTextEmpty | linkedAI/agents/resume_agent.py:49-68 | The resume is "" iff the file is missing, or reading it raises, or it has no text. For a PDF, no text means no page with non-empty text; for any other file, an empty file. |
| Resume.ResumeTextPages | linkedAI/agents/resume_agent.py:54-61 | A PDF resume is its non-empty page texts joined by "\n", in page order and each exactly once (text `j` is that of the `j`-th page with text). Splitting it on "\n" gives them back when none holds a newline. |
| Resume.ResumeAgent.constructor | linkedAI/agents/resume_agent.py:24-45 | The agent holds the resume text loaded from its path. |
| Resume.ResumeAgent.RunResumeMatch | linkedAI/agents/resume_agent.py:90-124 | A reply that validates is returned as parsed. A missing or invalid reply gives exactly `best_match_id = 0` and `reasoning = ""`. |
| Resume.MatchResultValidated | linkedAI/agents/resume_agent.py:113-124 | Any match result other than `(0, "")` is the validated reading of the model's reply. |
| Resume.ResumeAgent.RunResumeTweak | linkedAI/agents/resume_agent.py:126-154 | The suggestions are "" iff the reply is missing or empty. Otherwise they are the reply verbatim, for the resume and the job description. |
| Resume.ResumeAgent.RunResumeTweakAsWritten | linkedAI/agents/resume_agent.py:130-133 | `run_resume_tweak` as written: reading `resume_tweak_args.job` fails with `AttributeError`. `ResumeTweakAsWrittenRaises` states it. |
| Resume.ResumeTweakAsWrittenRaises | linkedAI/agents/resume_agent.py:130-133 | As written, `run_resume_tweak` raises `AttributeError` on every call. |

## Left out

- Playwright browsing, BeautifulSoup parsing, file reads, JSON decoding, pypdf extraction, the OpenAI calls and Chroma persistence: these are I/O. They appear as parameters: results pages, posting pages, resume files, the embedding function and the reply function.
- Prompt texts and their formatting, the tool schemas, logging and `print`: these are presentation. The model's reply is a function of the values the prompt is built from.
- linkedAI/agents/chat_agent.py is not part of this model. It is an unfinished stub that builds messages without their required `role`.
- linkedAI/agents/query_agent.py is not part of this model. It is an adapter over the embedding and vector-store services.
- linkedAI/gradio.py, linkedAI/agents/agent.py and linkedAI/config.py are not part of this model: user interface, a logging wrapper, and constants. The one constant the core uses, the chat agent's system prompt, is `ChatModels.ChatAgentSystemPrompt`.
- `JobCard` is imported from linkedAI/scraper/data_models.py, but that file does not declare it. The model uses the five fields every caller reads: title, company, location, description and link.
- Resume.ResumeAgent.RunResumeMatch: an exception from the API call leaves `response` unbound and raises an `UnboundLocalError` (resume_agent.py:100-113). The model takes the reply as given.
- Resume.ResumeAgent.RunResumeTweak: the same unbound-response crash after a failed API call is not modelled (resume_agent.py:137-148).
- Scrape.ScrapeLinkedinJobs: requires `max_results >= 0`. A negative value uses Python's negative slicing of the link list, which is not modelled.
- Scrape.ScrapeJobs: takes `max_results` as a natural number, for the same reason.
- Scrape.ScrapeLinkedinJobs: builds its URL with the corrected `BuildSearchUrl` of Findings row 1. As written, `scrape_linkedin_jobs` calls the raising `build_search_url` (scrape.py:151), so for a configuration without a salary it raises `AttributeError` before any page loads. That path is stated only by `SearchUrlAsWrittenNeedsSalary`.
- ChatModels.Message: messages are immutable values. linkedAI/gradio.py:117 and :131 overwrite `chat_history.messages[-1].content` in place on the mutable pydantic objects, and those edits are not modelled. The history's own methods only append.
- Scrape.Distinct: `list(set(...))` has no defined order in Python. The model keeps first occurrences in input order, and the contracts promise only the set of links and the absence of duplicates.
- Scrape.ScrapeJobDetails: the two 60-second timeouts and the browser session are folded into `loaded`. A lookup that raises, for a missing element or `text_content()` returning `None`, is one `None` outcome.
- Resume.IsPdf: lower-cases ASCII letters only. Python's Unicode `lower()` on other characters in a suffix does not change whether the suffix equals ".pdf".
- Resume.Suffix: follows `PurePath.suffix` of Python 3.12 on the final path component. Splitting a path into components is not modelled.
- Resume.ResumeAgent.constructor: the `try`/`raise` around `_load_resume` is not modelled, because `_load_resume` catches every exception from reading. Only `exists()` could raise, and that is I/O.
- ChatModels.ToolCall: a tool call's payload is a dictionary of strings. `to_messages` passes it through without reading it.
- ChatModels.Wire: dictionary key order is not modelled. The wire form is a map.
- Vectorize.VectorizeJobs: the embedding model name and any limit of the embedding or collection services are not modelled. A vector is an opaque value. A response with fewer vectors than documents is passed through as the code does.
- The repository's tests disagree with the code in places, and the model follows the code. The tests expect `f_E` "4,5" where `level_map` gives "3,4"; an `INTERNSHIP` level the enum lacks; `_f_WT == "1"` where the default is the integer 1; and match results from a `beta...parse` API the agent does not call.
- SearchConfig.ValidationErrors: the field's description says "between 1 and 2592000", but the code's bound is `gt=1`, so 1 itself is refused. The model follows the code.

## Findings

| source | as written | input that shows it | evidently intended | confidence | as-written member | corrected member |
|---|---|---|---|---|---|---|
| linkedAI/scraper/scrape.py:53 | `build_search_url` reads `config._f_SB2`. That attribute is not a declared private attribute (data_models.py:39-41) and is assigned only when a salary is set (data_models.py:66-67), so the read raises `AttributeError`. | `Config(keywords="python")`: no salary | an unset salary code counts as absent, as for `_f_E` and `_f_TPR` | medium, not executed | Scrape.SearchUrlAsWritten | Scrape.BuildSearchUrl |
| linkedAI/agents/resume_agent.py:132 | `run_resume_tweak` reads `resume_tweak_args.job.description`. `ResumeTweakArgs` has only `job_description` (data_models.py:98-101). | any `ResumeTweakArgs(job_description="...")` | the prompt uses `resume_tweak_args.job_description` | high, not executed | Resume.ResumeAgent.RunResumeTweakAsWritten | Resume.ResumeAgent.RunResumeTweak |
