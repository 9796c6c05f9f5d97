# APEC 2025 chatbot core in Dafny

This project models the deterministic core of a bilingual (Vietnamese and
English) retrieval-augmented chatbot for APEC 2025 and proves properties of
that model.

- `backend/modules/utils.py` holds three rules:
  - the language decision rule, which combines a statistical identifier's
    verdict with a fixed set of Vietnamese diacritic letters;
  - the language flag;
  - the keyword tables that map an answer to three follow-up questions.
- `backend/modules/chatbot_core.py` holds the `APECChatbot` object. The
  model covers its set-up sequence, the readiness and collection-count
  guards, the choice of prompt template, and the way `query` turns the
  retrieval chain's output into a response. That covers source records,
  metadata defaults, the 200-character preview and the error fallback.

Files:

- `wrappers.dfy` (module `Wrappers`): `Option` and `Result`. `None` or
  `Failure` stands for a foreign call that raised.
- `builtins.dfy` (module `Builtins`): the Python built-ins the core uses.
  These are `str.lower`, substring containment `k in s`, `any` and `all`.
  Each recursive definition is proved against a declarative one.
- `utils.dfy` (module `Utils`): `detect_language`, `get_language_flag`,
  `get_context_suggestions`, with both tables and both default lists.
- `chatbot_core.dfy` (module `ChatbotCore`): the class `APECChatbot`, with
  its fields, constructor, `setup_models`, `is_ready`,
  `get_collection_count` and `query`. It also holds the two prompt
  templates, the source-record mapping and the preview.

Foreign calls become parameters:

- the language identifier's result on the text (`Option<string>`, `None`
  when it raises);
- the outcome of each set-up step (`SetupEnv`), including what the
  filesystem reports for the store directory;
- the collection count (`Result<nat, string>`);
- the RetrievalQA chain, a function from the request it is built from and
  called with (`ChainRequest`) to a result or an exception message.

The source's default arguments are kept: `persist_directory` defaults to
`"./chroma_db_langchain_e5"`, and `query` defaults to `top_k=5`,
`auto_detect=True`, `preferred_language="vi"` and no `search_type`.

`Query` states which request the chain receives: the language's prompt,
search type, `k`, chain type `"stuff"`, source documents requested, and the
query `"query: " + question`.

## Model

| member | source | states |
|---|---|---|
| `Builtins.LowerChar` | backend/modules/utils.py:10 | one code point lower-cased: ASCII capitals move up by 32, small ASCII letters stay, and any change is a move up by 32 or by 1 |
| `Builtins.Lower` | backend/modules/utils.py:77 | lower-casing keeps the length and acts code point by code point |
| `Builtins.LowerIdempotent` | backend/modules/utils.py:77 | lower-casing already lower-cased text changes nothing |
| `Builtins.AnyCharIn` | backend/modules/utils.py:10 | `any(c in chars for c in s)` holds iff some character of `s` is in `chars` |
| `Builtins.Contains` | backend/modules/utils.py:137 | Python's `k in s` holds iff `k` occurs in `s` at some position; the empty keyword occurs everywhere |
| `Builtins.All` | backend/modules/chatbot_core.py:160-165 | `all(bs)` holds iff every element is true |
| `Utils.HasVietnamese` | backend/modules/utils.py:9-10 | the scan holds iff some character of the text lower-cases into the 67-letter diacritic set |
| `Utils.LowerKeepsOrFoldsDiacritics` | backend/modules/utils.py:9-10 | a character lower-cases into the set iff it is one of the small letters or one of their capitals, so the scan catches capitals too |
| `Utils.DetectLanguage` | backend/modules/utils.py:6-17 | the result is always "vi" or "en"; "en" whenever the identifier raised |
| `Utils.DetectLanguageDecision` | backend/modules/utils.py:8-15 | when the identifier returns, the result is "vi" iff it returned "vi" or the text has a diacritic letter |
| `Utils.DiacriticOverridesIdentifier` | backend/modules/utils.py:9-13 | one small or capital diacritic letter gives "vi" whatever the identifier returned |
| `Utils.IdentifierVerdictVi` | backend/modules/utils.py:12-13 | an identifier verdict of "vi" gives "vi" with no diacritics at all |
| `Utils.IdentifierFailureFailsOpen` | backend/modules/utils.py:7-17 | when the identifier raises the result is "en", even for text whose diacritics would give "vi" had the identifier returned any verdict |
| `Utils.LanguageFlag` | backend/modules/utils.py:20-21 | the result is the VN flag iff the language is "vi", the US flag otherwise |
| `Utils.RulesFor` | backend/modules/utils.py:80-133 | "vi" selects the Vietnamese table, every other value the English one |
| `Utils.DefaultsFor` | backend/modules/utils.py:141-152 | "vi" selects the Vietnamese default list, every other value the English one |
| `Utils.AnyKeyword` | backend/modules/utils.py:137 | a rule fires iff one of its keywords occurs as a substring of the text |
| `Utils.FirstMatch` | backend/modules/utils.py:136-138 | the result is the position of a matching rule with no matching rule before it, or None when no rule matches |
| `Utils.GetContextSuggestions` | backend/modules/utils.py:75-152 | the result is always three distinct questions, each 6 to 99 characters long and ending in "?" |
| `Utils.TablesAreWellFormed` | backend/modules/utils.py:80-152 | every list in both tables and both default lists has three distinct questions ending in "?" |
| `Utils.FirstMatchWins` | backend/modules/utils.py:136-138 | the earliest matching rule in declared order decides, whatever later rules also match |
| `Utils.DefaultsIffNoMatch` | backend/modules/utils.py:140-152 | the default list is returned iff no keyword of any rule occurs in the lower-cased text |
| `Utils.OtherLanguagesUseEnglish` | backend/modules/utils.py:107-152 | every language other than "vi" gives the same suggestions as "en" and the US flag |
| `Utils.OrganisedGoesToLocation` | backend/modules/utils.py:89-98 | Vietnamese text with "tổ chức" never gets the APEC-general list; it gets the location list unless an event keyword also occurs |
| `Utils.EventKeywordVi` | backend/modules/utils.py:83-87 | Vietnamese text with "sự kiện" gets the three event questions |
| `Utils.MayMatchesInsideWords` | backend/modules/utils.py:110-137 | English text with "may" anywhere, including inside a word, gets the event questions |
| `Utils.MayorIsAnEvent` | backend/modules/utils.py:110-114 | "The Mayor spoke." gets the English event questions |
| `ChatbotCore.StepsCompleted` | backend/modules/chatbot_core.py:27-46 | each of the four assignments happens iff the step before it completed and its own step completes; the store is opened only when its directory exists and lists entries |
| `ChatbotCore.SetupFailure` | backend/modules/chatbot_core.py:27-49 | set-up succeeds iff every step completes and the store directory exists and is not empty; otherwise the message is that of the first step that raises, and a missing or empty directory gives the "not found" message without Chroma being tried |
| `ChatbotCore.LanguageSpecificPrompt` | backend/modules/chatbot_core.py:51-93 | the template is the Vietnamese one iff the language is "vi", otherwise the English one; both declare exactly context and question and contain both placeholders |
| `ChatbotCore.TemplatesDiffer` | backend/modules/chatbot_core.py:53-91 | the two templates are different strings |
| `ChatbotCore.TemplatesUsePlaceholders` | backend/modules/chatbot_core.py:65-91 | both templates contain "{context}" and "{question}" |
| `ChatbotCore.ContentPreview` | backend/modules/chatbot_core.py:129 | content of at most 200 characters is kept; longer content becomes its first 200 characters and "...", 203 in all |
| `ChatbotCore.PreviewBounds` | backend/modules/chatbot_core.py:129 | a preview has at most 203 characters and starts with as much of the content as fits in 200 |
| `ChatbotCore.PreviewIdempotent` | backend/modules/chatbot_core.py:129 | previewing a preview changes nothing |
| `ChatbotCore.MetaGet` | backend/modules/chatbot_core.py:125-128 | `metadata.get(key, default)`: the stored value when the key is present, the default otherwise |
| `ChatbotCore.SourceOf` | backend/modules/chatbot_core.py:124-130 | each metadata field is copied when present; otherwise title is "Unknown", url is "", contains_table is false and chunk_length is 0; the preview is the content preview |
| `ChatbotCore.QueryLanguage` | backend/modules/chatbot_core.py:98-101 | with auto-detection the language is `detect_language(question)`; without it, the preferred language as given |
| `ChatbotCore.AutoDetectedLanguage` | backend/modules/chatbot_core.py:98-99 | with auto-detection the language is the detector's verdict, so it is "vi" or "en" |
| `ChatbotCore.PreferredLanguageUnvalidated` | backend/modules/chatbot_core.py:100-104 | without auto-detection the preferred language is copied verbatim; any value but "vi" gets the English prompt |
| `ChatbotCore.APECChatbot.constructor` | backend/modules/chatbot_core.py:18-24 | the key and directory are stored; the four components start unset, so the object is not ready |
| `ChatbotCore.APECChatbot.Create` | backend/modules/chatbot_core.py:16-47 | an object is returned iff set-up succeeds; it then holds the key and directory, the e5 sentence-transformer and its embeddings wrapper, a Chroma store opened on the given directory with those embeddings, and a gemini-2.0-flash client at temperature 0.1 built with the given key, so it is ready; otherwise the error is the set-up prefix followed by the failing step's message |
| `ChatbotCore.APECChatbot.SetupModels` | backend/modules/chatbot_core.py:27-49 | each component is assigned once its step completes, in order, and fields of later steps are unchanged; the first failure is reported with the set-up prefix; success leaves the object ready |
| `ChatbotCore.APECChatbot.IsReady` | backend/modules/chatbot_core.py:158-165 | ready iff the vector store, the LLM, the embedding model and the embeddings are all set |
| `ChatbotCore.APECChatbot.CollectionCount` | backend/modules/chatbot_core.py:150-156 | 0 when there is no store or counting raises; otherwise the count; a nonzero result is a real count |
| `ChatbotCore.APECChatbot.Query` | backend/modules/chatbot_core.py:95-148 | the chain receives the chosen language's prompt and the query "query: " + question; on success the sources follow the documents' order and length, num_sources equals their number and every preview is at most 203 characters; on any failure the answer is the apology plus the error text, with no sources, 0 sources and language "en"; with auto-detection the language is "vi" or "en" |

## Left out

- Python's `str.lower` is modelled for ASCII, the Latin-1 Supplement, the
  six Vietnamese capitals of Latin Extended-A/B (Ă Đ Ĩ Ũ Ơ Ư) and
  U+1EA0..U+1EF9. Every other code point is left unchanged. Other effects
  of full Unicode lower-casing are not modelled, such as the Kelvin sign
  becoming "k" or "İ" becoming two code points.
- The statistical language identifier, the sentence-transformer models,
  the Chroma store, the Gemini client and the RetrievalQA chain are foreign
  code. Only their outcomes are modelled, as parameters. So `Query` does
  not fix how many documents come back for a given `k`.
- `str(e)` of a foreign exception is taken as given. Two messages are
  fixed by the model itself. `SetupFailure` fixes the "not found" message.
  `Query` fixes the AttributeError text of `None.as_retriever`.
- The Gemini temperature 0.1 is an exact rational here, not a float.
- The static lookup is the only suggestion step modelled. The code has no
  model-generated suggestions and no merge step. The HTTP handler at
  backend/api_backend/api_backend.py:141-145 passes an `llm` keyword that
  `get_context_suggestions` does not accept; the HTTP layer is not part of
  this model.
- The HTTP service, the Streamlit interface, configuration and environment
  checks, the launcher scripts and the welcome message are not part of
  this model. They are I/O, rendering or fixed display text.
- LanguageSpecificPrompt: does not state that context and question are the
  only brace placeholders in the templates, only that both occur; the
  ~1000-character instruction texts are not scanned for braces.
