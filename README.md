# Chunk identification, deduplicating ingestion and assistant configuration

This project is a Dafny model of two parts of a retrieval-augmented assistant over PDF documents.

**Ingestion (`src/core/database.py`).** Loading and splitting produce an ordered list of chunks.
- Each chunk is a LangChain `Document`: a text plus a metadata dictionary holding `source` and `page`.
- `assign_chunk_ids` walks the list and stamps every chunk, in place, with the id `"{source}:{page}:{index}"`. The index counts up while consecutive chunks share the same `source:page` key and restarts at 0 when the key changes.
- `add_to_chroma` stamps the chunks and reads the set of ids already in the Chroma vector store once. It keeps, in order, the chunks whose id is not in that set. If any remain, it makes exactly one `add_documents` call with them under their own ids.

**Configuration (`src/config/assistant_config.py`).**
- `get_configs` gives one parsed YAML configuration per `.yaml` entry of a directory, or the single configuration of a `.yaml` file. It rejects any other path with `ValueError`.
- `get_assistant_config` takes the `config` entry of the first configuration.
- `get_llm_model` accepts a model name only when it contains `gemini`.
- `get_assistant` and `run_assistant` share a lazy initialisation guard.

Modules:
- `ChunkIds` (`chunk_ids.dfy`): the pure content of the ingestion.
  - Documents and their keys.
  - The run index of a position.
  - The id format and its parser.
  - The stamped list and the selection of new chunks.
  - The lemmas about each of these.
- `CoreDatabase` (`database.dfy`): the imperative part, proved against the `ChunkIds` functions.
  - `AssignChunkIds` is a loop over an `array<Document>`.
  - The `Database` class is the vector store seen as a set of ids, plus a ghost log of its `add_documents` calls.
  - `AddToChroma` is the filter loop followed by the insertion.
- `AssistantConfig` (`assistant_config.dfy`):
  - `GetConfigs` is a loop over a directory listing.
  - `AssistantConfigOf` and `GetLlmModel` are pure functions.
  - The `IeeeAssistant` class holds the `_llm` and `assistant` attributes.
- `Strings`, `Sequences`, `Wrappers`: the few Python string operations involved (`str()` of an integer, the two-part f-strings `f'{a}:{b}'`, `endswith`, `in`), order-preserving filtering, and `Option`/`Result`/`Outcome`.

The docstring of `assign_chunk_ids` (src/core/database.py:23) promises unique ids. The code does not guarantee this, and the model follows the code. `ChunkIds.UniqueIdsIffRunsContiguous` proves that ids are distinct exactly when every `source:page` key occupies one contiguous stretch of the list. `ChunkIds.RecurringKeyCollides` exhibits the colliding pair when a key comes back.

## Model

| member | source | states |
|---|---|---|
| ChunkIds.KeysAt | src/core/database.py:42-44 | the key of chunk `i` is its rendered `source`, a colon, and its rendered `page` (a missing entry renders as `None`) |
| ChunkIds.RunIndexIsRunPosition | src/core/database.py:38-49 | a chunk's index is `k` if and only if `k` is its offset inside the maximal run of equal keys that contains it |
| ChunkIds.RunIndexAlongRun | src/core/database.py:46-47 | along a run of equal keys the indices are consecutive |
| ChunkIds.CursorStep | src/core/database.py:38-52 | from `last_page_id`/`current_chunk_index` describing chunk `i-1`, the loop's update gives chunk `i` its run index and the two variables then describe chunk `i` |
| ChunkIds.ChunkIdRoundTrip | src/core/database.py:51 | splitting an id at its last `:` gives back the key and the index |
| ChunkIds.ChunkIdInjective | src/core/database.py:51 | two ids are equal only when their keys and indices are |
| ChunkIds.AssignedIdsAt | src/core/database.py:44-51 | position `i` gets the id `key + ":" + str(index)` of its own key and run index |
| ChunkIds.StampedAt | src/core/database.py:41-54 | chunk `i` of the stamped list is chunk `i` with `metadata['id']` set to its `source:page:index` id |
| ChunkIds.StampedOnlyWritesId | src/core/database.py:41-56 | stamping keeps length, order and texts, adds the `id` key, leaves every other metadata entry unchanged and writes the positional id |
| ChunkIds.FirstChunkIndexIsZero | src/core/database.py:38-49 | the first chunk's id is its key followed by `:0` |
| ChunkIds.IdsDependOnlyOnKeys | src/core/database.py:38-54 | two lists with the same key sequence get the same ids, whatever their texts |
| ChunkIds.KeysOfStamped | src/core/database.py:42-54 | stamping does not change any chunk's key |
| ChunkIds.StampedIdempotent | src/core/database.py:38-56 | stamping an already stamped list changes nothing |
| ChunkIds.RecurringKeyCollides | src/core/database.py:22-54 | a key that returns after a different key restarts at 0 and repeats the id of the start of its earlier run |
| ChunkIds.UniqueIdsIffRunsContiguous | src/core/database.py:22-54 | all ids are distinct if and only if every key forms one contiguous run (the unique ids promised at line 23) |
| ChunkIds.AssignedIdsExample | src/core/database.py:38-54 | keys `a.pdf:1, a.pdf:1, a.pdf:2, a.pdf:1` get `a.pdf:1:0, a.pdf:1:1, a.pdf:2:0, a.pdf:1:0` |
| ChunkIds.SelectNew | src/core/database.py:74-77 | a chunk is in `new_chunks` exactly when it is in the list, has an `id` and that id is not in the snapshot |
| ChunkIds.StampedIsNewIff | src/core/database.py:76 | a stamped chunk is selected exactly when its assigned id is not in the snapshot |
| ChunkIds.SelectedAreExactlyUnseen | src/core/database.py:69-77 | the selected chunks keep list order, are all and only the unseen chunks, and each occurs as often as in the list (duplicates within a batch are kept) |
| ChunkIds.AddedIdsAreUnseenIds | src/core/database.py:79-82 | the ids passed to `add_documents` are exactly the chunk ids missing from the snapshot |
| ChunkIds.IngestStoresEveryId | src/core/database.py:79-84 | old ids plus the added ids equal old ids plus every chunk id |
| ChunkIds.ReingestSelectsNothing | src/core/database.py:70-84 | once every chunk id is stored, no chunk is selected |
| CoreDatabase.AssignChunkIds | src/core/database.py:22-56 | the same array is returned and its contents become the stamped list of the original contents |
| CoreDatabase.Database.constructor | src/core/database.py:15-20 | the opened store holds the persisted ids and no call has been made |
| CoreDatabase.Database.ExistingIds | src/core/database.py:70-71 | the snapshot is the set of stored ids |
| CoreDatabase.Database.AddDocuments | src/core/database.py:82 | the stored ids grow by the given ids and the call is logged with its documents and its ids |
| CoreDatabase.AddToChroma | src/core/database.py:59-84 | the chunks end up stamped; the store becomes old ids plus the ids of the selected chunks; `add_documents` is called once, with the selected chunks and their ids, when the selection is non-empty, and not at all otherwise |
| CoreDatabase.ReingestIsNoOp | src/core/database.py:59-84 | ingesting the same chunks twice stores old ids plus every chunk id; the second call makes no `add_documents` call, so the log holds only the first call's insertion of its selected chunks |
| AssistantConfig.PathJoin | src/config/assistant_config.py:113 | the joined path ends with the file name |
| AssistantConfig.GetConfigs | src/config/assistant_config.py:92-119 | the result is the directory's YAML files read in listing order, or the one YAML file, or `ValueError('Invalid config path: ...')` |
| AssistantConfig.DirectoryConfigs | src/config/assistant_config.py:110-114 | a directory gives one configuration per `.yaml` entry, in listing order, each read from that entry's path; other entries are skipped |
| AssistantConfig.DirectoryWithoutYamlGivesNone | src/config/assistant_config.py:110-114 | a directory without `.yaml` entries gives an empty list, not an error |
| AssistantConfig.FileConfigs | src/config/assistant_config.py:115-118 | a non-directory path is accepted exactly when it is a file ending in `.yaml`, and gives exactly its content; otherwise `ValueError` |
| AssistantConfig.AssistantConfigOf | src/config/assistant_config.py:135-144 | the result is the first configuration's `config` entry, and `None` when there is none |
| AssistantConfig.AssistantConfigIgnoresTheRest | src/config/assistant_config.py:143-144 | configurations after the first never matter |
| AssistantConfig.GetLlmModel | src/config/assistant_config.py:146-172 | a client is built only for a string model name and is built with that name; a non-string model raises `TypeError` |
| AssistantConfig.GetLlmModelAcceptsExactlyGemini | src/config/assistant_config.py:164-172 | a model name is accepted if and only if `gemini` occurs in it; otherwise the `ValueError` names the model |
| AssistantConfig.GetLlmModelExamples | src/config/assistant_config.py:164-172 | `gemini-1.5-flash` is accepted and `gpt-4o` is rejected |
| AssistantConfig.IeeeAssistant.constructor | src/config/assistant_config.py:81-89 | the LLM config holds the `system_message` and `model` entries, and neither `_llm` nor `assistant` exists yet |
| AssistantConfig.IeeeAssistant.GetAssistant | src/config/assistant_config.py:174-220 | nothing changes when both attributes exist; otherwise an unsupported model raises with nothing set, a prompt that cannot be built raises after `_llm` is set and leaves `assistant` missing, and otherwise both are built from the model and the system prompt; success holds exactly when both attributes exist, and `assistant` never exists without `_llm` |
| AssistantConfig.HalfBuiltAssistant | src/config/assistant_config.py:198-220 | an accepted model with a prompt that cannot be built leaves `_llm` set and `assistant` missing, and `run_assistant` then raises `ValueError('Assistant not initialized')` (lines 238-239) |
| AssistantConfig.IeeeAssistant.RunAssistant | src/config/assistant_config.py:238-247 | raises `ValueError('Assistant not initialized')` if and only if `assistant` is missing; otherwise streams the input through the chain |
| AssistantConfig.NewAssistant | src/config/assistant_config.py:81-89 | construction fails with the error of `get_configs`, or with `AttributeError` when the first `config` entry is not a mapping; otherwise it yields a fresh assistant holding the configurations read, the first one's `config` mapping and the LLM config of its `system_message` and `model` entries, with nothing built |
| Strings.ContainsIffOccurs | src/config/assistant_config.py:164 | Python's `sub in s` holds exactly when `sub` occurs at some position of `s` |

## Left out

- `clear_database` (src/core/database.py:87-98) removes the store's directory, which is pure file-system I/O.
- Loading and splitting (src/core/loader.py) are not modelled; the chunk list is an arbitrary input.
- Embeddings (src/core/embeddings.py) and retrieval (src/core/retriever.py) are external calls.
- The Streamlit app, the command-line drivers and `tests/query.py` are outside the core.
- The progress messages `add_to_chroma` prints are not modelled.
- `CoreDatabase.AddToChroma` takes the store as a parameter rather than opening `Database()` itself. The Chroma client, its embedding function and its persistence directory are not modelled.
- `CoreDatabase.AssignChunkIds` models the list as an array of document values, so two slots cannot hold the same Python object. If one object appeared twice, the later write would also change the earlier slot's id.
- `CoreDatabase.Database.AddDocuments` treats the store as a set of ids. What Chroma does with an id repeated inside a batch, or with an id it already holds, is library behaviour and is not modelled. So are embeddings and texts.
- Metadata values are text or integers, rendered as Python f-strings render them. Other value types (floats, booleans) are not modelled.
- YAML parsing (`read_yaml_file`) is a function parameter from path to parsed configuration. YAML numbers, booleans and lists are one opaque value.
- A parsed configuration file is always a top-level mapping. A file that parses to `None` (an empty file) or to a list, on which `cfg.get('config')` (src/config/assistant_config.py:144) would raise `AttributeError`, is not representable.
- A directory entry that is itself a directory but ends in `.yaml` is read like a file. The model takes `os.listdir` entries as readable files.
- `AssistantConfig.GetLlmModel` treats any non-string model value as `TypeError`. Python would test membership for a list or a mapping.
- The temperature, prompt templates, `ChatGoogleGenerativeAI` and the document chain are opaque tokens. The tokens record only the model name and the system prompt.
- AssistantConfig.IeeeAssistant.GetAssistant: whether building the prompts and the chain (src/config/assistant_config.py:202-220) raises is a parameter, `buildError`, of the system prompt. The model does not say which system prompts LangChain rejects, and it assumes `ChatGoogleGenerativeAI(...)` and `create_stuff_documents_chain` themselves never raise.
- `AssistantConfig.IeeeAssistant.RunAssistant` does not model document retrieval, chat history or streaming; the response token records the chain and the input.
- `documents_retriever` (src/config/assistant_config.py:121-133) is a call into the retriever and is not modelled.
