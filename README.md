# Portfolio catalog and assistant: a Dafny model

This project models the logic behind a portfolio site built with Next.js, Firebase and the Gemini API:

- **The project catalog service.** Create is two-phase: first a placeholder document, then a patch once the images are uploaded. Update reconciles the kept images with the new uploads. Delete is best effort and cascades to the image blobs. Reads go by id and by cursor page.
- **The client query cache.** It has hierarchical query keys, cursor chaining between pages, and the optimistic delete protocol: snapshot, remove, roll back on error, invalidate when settled.
- **The project editor.** It holds image items (stored images first, then new files) and a primary index that is adjusted when an item is removed. The technology list has no duplicates. Submit splits the payload for the service.
- **Two AI proxy endpoints.**
  - The project-idea generator builds a prompt from defaults and strips code fences from the reply.
  - The chat assistant validates the request, formats the last ten turns and assembles the prompt.
- **Small client state machines.** The chat session, the idea generator, the home-page typewriter, the featured-projects normalisation, and the register and contact forms.

One Dafny module stands for each source file:

| module | file |
|---|---|
| `Common` | shared JavaScript string and array operations (`trim`, `slice(-n)`, `join`) and the `err instanceof Error ? err.message : fallback` idiom |
| `Projects` | the `Project` record and the stored-document shapes |
| `ProjectService` | `lib/services/projectService.ts` |
| `ProjectQueries` | `lib/hooks/useProjects.ts` |
| `ProjectEditor` | `components/projects/ProjectForm.tsx` |
| `ProjectGenRoute` | `app/api/projectgen/route.ts` |
| `ChatRoute` | `app/api/chat/route.ts` |
| `ChatSession` | `lib/hooks/useChat.ts` |
| `IdeaGenerator` | `lib/hooks/useProjectGen.ts` |
| `Typewriter` | `app/page.tsx` |
| `FeaturedProjects` | `lib/hooks/useFeaturedProjects.ts` |
| `RegisterForm` | `components/auth/RegisterForm.tsx` |
| `ContactForm` | `components/contact/ContactFormComponent.tsx` |

How the model is built:

- **Stateful code becomes classes.** The document store, the query cache, the editor, the hooks and the forms are classes whose methods update their fields.
- **Pure code stays pure.** Key builders, the page updater, prompt building and reply cleaning are functions.
- **Async code is split at its await.** Each async handler has one method for the part before the await, which returns the request it sends, and one for the continuation, which takes what came back.
- **External services are oracles.** The Firestore and Storage calls, the Gemini call and `JSON.parse` are function parameters or sets of failing inputs.

Where the system's documented behaviour and the code differ, the model follows the code:

- **`imageUrl` after an update without new files.** The documented end-to-end scenario expects it to be re-derived from the new primary index. In `updateProject` it is re-derived only when new files are uploaded. `ProjectService.UpdateWithoutFilesKeepsImageUrl` shows the difference. The editor always sends `imageUrl = items[primary].url`, so edits made through the form do get the URL right (`ProjectEditor.SubmitEditWithoutUploads`).
- **Which blobs delete removes.** The documented rule falls back to the legacy `imageUrl` only when `images` is absent. The code also falls back when `images` is empty (`ProjectService.BlobsOf`).
- **Upload progress.** The documented rule weights completion fractions. The code reports `round((index + 1) / n * 100)` per file, and the model uses that.

## Model

| member | source | states |
|---|---|---|
| Common.Trim | lib/hooks/useChat.ts:13 | `String.prototype.trim`: the result is a contiguous piece of the input, at the offset of its first non-space character, with no white space at either end. |
| Common.TrimRemovesOnlySpace | lib/hooks/useChat.ts:13 | Trimming drops nothing but white space, before and after the kept text. |
| Common.TrimIdempotent | components/projects/ProjectForm.tsx:82 | Trimming twice is trimming once. |
| Common.TakeLast | app/api/chat/route.ts:59 | `slice(-n)`: the last `min(len, n)` elements, as a suffix of the input. |
| Common.TakeLastKeepsLast | lib/hooks/useChat.ts:33 | Keeping the last `n > 0` of a list that ends with `x` keeps `x` last, with at most `n` entries. |
| Common.Join | app/api/chat/route.ts:63 | `join`: the empty list gives the empty string; otherwise the result starts with the first part and ends with the last. |
| Common.JoinContains | app/api/projectgen/route.ts:25-47 | Every part of a join occurs in the joined text, at its computed offset. |
| Common.ErrorMessage | lib/hooks/useChat.ts:53 | A thrown Error gives its message; any other thrown value gives the fallback text. |
| Common.NatToString | app/api/projectgen/route.ts:27 | The decimal text of a natural number: digits only, no leading zero, denoting the number. |
| Common.IntToString | app/api/projectgen/route.ts:27 | The decimal text of an integer: a '-' exactly when it is negative, and the text denotes the integer. |
| Projects.Overlay | lib/services/projectService.ts:223-226 | A field the write carries takes its value. Otherwise the stored value stays. |
| Projects.ApplyPatch | lib/services/projectService.ts:223-226 | A partial document write, field by field: each of the nine fields present in the patch replaces the stored one, and each absent field keeps its stored value. `createdAt` is kept, `updatedAt` is written only when stamped, and an empty patch changes nothing. |
| Projects.ApplyPatchIdempotent | lib/services/projectService.ts:223-226 | Writing the same patch twice is writing it once. |
| ProjectService.UploadProgress | lib/services/projectService.ts:78-81 | `Math.round((index+1)/n*100)` in exact integer arithmetic: it is at most 100, and the report for the last file is exactly 100. |
| ProjectService.UploadProgressMonotone | lib/services/projectService.ts:72-81 | Progress reports never decrease with the file index. |
| ProjectService.UploadedUrls | lib/services/projectService.ts:72-86 | There is one URL per file, and URL `i` is the one file `i` was uploaded to, whatever the completion order. |
| ProjectService.StoredUrls | lib/services/projectService.ts:72-86 | The uploaded URLs of the files that did not fail, in file order. When none fails they are exactly `UploadedUrls`. |
| ProjectService.StoredUrlsMembers | lib/services/projectService.ts:72-86 | A URL is left in the blob store exactly when some file that did not fail was uploaded to it. |
| ProjectService.Reports | lib/services/projectService.ts:78-81 | One progress report per successful upload. When none fails, report `i` is `UploadProgress(i, n)` for every file. |
| ProjectService.UploadStep | lib/services/projectService.ts:72-86 | One more file adds its URL and its report exactly when its upload succeeds, and it fails the batch exactly when it is in the failing set. |
| ProjectService.PrimaryImageUrl | lib/services/projectService.ts:131-132 | `urls[i] \|\| urls[0]`: the entry at `i` when it exists and is non-empty, else the first entry; always one of the URLs. |
| ProjectService.InitialDoc | lib/services/projectService.ts:111-126 | The placeholder document has `images = []` and `imageUrl = ''`. GitHub and live URLs default to `''` and `featured` to false. `createdAt = updatedAt = now`. |
| ProjectService.CreatedDoc | lib/services/projectService.ts:111-139 | With no files the document stays the placeholder. With files, `images` holds the uploaded URLs in file order, `imageUrl` is the chosen URL (or the first), and `primaryImageIndex` is kept even when out of range. |
| ProjectService.CreatePatch | lib/services/projectService.ts:129-138 | The second write of create carries only `images`, `imageUrl` and `primaryImageIndex`, and stamps no `updatedAt`. `images` is the uploaded URLs, `imageUrl` is one of them (the requested one when it exists and is non-empty), and the requested index is kept. |
| ProjectService.UpdatePatch | lib/services/projectService.ts:203-226 | With new files, `images` is `existingImages` (default `[]`) followed by the uploads, and `imageUrl` is re-derived from the primary index (default 0). Without new files the supplied fields pass through untouched. `existingImages` is never written, and `updatedAt` is always stamped. |
| ProjectService.DeleteEffects | lib/services/projectService.ts:90-103 | One blob deletion per URL, in order. A failed deletion is swallowed. |
| ProjectService.BlobsOf | lib/services/projectService.ts:239-254 | A non-empty `images` array is deleted whole. Otherwise at most the legacy `imageUrl` is deleted. Nothing is deleted exactly when there are no images and no `imageUrl`. |
| ProjectService.RemainingBlobsRemovesNonFailing | lib/services/projectService.ts:90-103 | After deleting a list of URLs, exactly the blobs whose deletion did not fail are gone, and nothing else is touched. |
| ProjectService.Converted | lib/services/projectService.ts:162-169 | A stored document converts unchanged when both timestamps are present. Otherwise `toDate` on a missing field throws. |
| ProjectService.ReadPage | lib/services/projectService.ts:159-174 | Returns the page's documents in order. The cursor is the last document, or none for an empty page. Any document without timestamps makes the read fail. |
| ProjectService.Backend.GetProjectById | lib/services/projectService.ts:178-191 | No document gives none. An existing document is returned with its id, or the read fails when a timestamp is missing. |
| ProjectService.Backend.constructor | lib/services/projectService.ts:25-28 | The service starts from the given document and blob stores, with nothing issued yet. |
| ProjectService.Backend.UploadImages | lib/services/projectService.ts:67-87 | The batch rejects exactly when some file fails. Otherwise it answers the URLs in file order, whatever the order in which uploads complete. Each successful file adds its blob and one progress report, also when the batch rejects. Documents are untouched. |
| ProjectService.Backend.CreateProject | lib/services/projectService.ts:106-142 | Adds the placeholder under a fresh id. Only when files are given does it upload them and issue one patch. When every upload succeeds, the final document is `CreatedDoc` and progress `i` is `UploadProgress(i, n)`. When an upload rejects, the placeholder stays with `images = []` and `imageUrl = ''`, the blobs that did upload stay, and no patch is issued. |
| ProjectService.Backend.UpdateProject | lib/services/projectService.ts:194-227 | Uploads the new files, then writes `UpdatePatch`. When an upload rejects, nothing is written, but the blobs that did upload stay. The write has no effect on the store when the document does not exist. |
| ProjectService.Backend.DeleteImages | lib/services/projectService.ts:89-103 | Tries every URL in order. The failing ones stay in the blob store, and documents are untouched. |
| ProjectService.Backend.DeleteProject | lib/services/projectService.ts:230-258 | Removes the blobs of a non-empty `images` list, else the legacy `imageUrl` when set. It then always deletes the document, also when it did not exist. |
| ProjectService.UpdateWithoutChangesKeepsImages | lib/services/projectService.ts:219-226 | An update with no files and no fields changes nothing but `updatedAt`. |
| ProjectService.UpdateWithoutFilesKeepsImageUrl | lib/services/projectService.ts:203-216 | After a create with two files and primary 1, an update that sets primary 0 without files leaves `imageUrl` on the second image. |
| ProjectService.UpdateReconcilesImages | lib/services/projectService.ts:203-215 | The kept URLs come first, and upload `i` sits at position `len(existing) + i`. |
| ProjectQueries.All | lib/hooks/useProjects.ts:17 | The root key has one part. |
| ProjectQueries.Lists | lib/hooks/useProjects.ts:18 | `lists()` extends the root key with `'list'`. |
| ProjectQueries.List | lib/hooks/useProjects.ts:19 | `list(n) = lists() ++ [n]`: strictly under `lists()` and under the root. |
| ProjectQueries.Details | lib/hooks/useProjects.ts:20 | `details()` extends the root key with `'detail'`; it and `lists()` are not prefixes of each other. |
| ProjectQueries.Detail | lib/hooks/useProjects.ts:21 | `detail(id) = details() ++ [id]`: under `details()` and never under `lists()`. |
| ProjectQueries.DetailQueryKey | lib/hooks/useProjects.ts:41-46 | The detail query runs exactly when the id is non-empty, under `detail(id)`. |
| ProjectQueries.KeyNamespacesDisjoint | lib/hooks/useProjects.ts:16-22 | No list key is a detail key, and neither namespace is a prefix of the other. |
| ProjectQueries.NextPageParam | lib/hooks/useProjects.ts:35 | The next page parameter is the previous page's `lastVisible`, and there is none when that is null. |
| ProjectQueries.FirstPage | lib/hooks/useProjects.ts:33-36 | The first page is fetched with the undefined parameter, and the result is chained. |
| ProjectQueries.FetchNextPage | lib/hooks/useProjects.ts:24-37 | Fetching another page keeps the earlier pages and parameters and keeps the chain. It changes nothing exactly when there is no next cursor. |
| ProjectQueries.WithoutProject | lib/hooks/useProjects.ts:112 | The filter keeps exactly the projects with another id. |
| ProjectQueries.WithoutProjectAppend | lib/hooks/useProjects.ts:112 | The filter distributes over concatenation, so kept projects keep their order. |
| ProjectQueries.WithoutProjectNoMatch | lib/hooks/useProjects.ts:112 | A page without the project is unchanged. |
| ProjectQueries.WithoutProjectIdempotent | lib/hooks/useProjects.ts:112 | Filtering twice is filtering once. |
| ProjectQueries.RemoveFromPage | lib/hooks/useProjects.ts:110-113 | Only the page's projects change, and its cursor is kept. |
| ProjectQueries.RemoveFromData | lib/hooks/useProjects.ts:108-114 | Every page is filtered. The page count and page parameters are kept, and no page holds the id afterwards. |
| ProjectQueries.RemoveFromDataKeepsChain | lib/hooks/useProjects.ts:108-114 | The optimistic removal keeps the cursor chain and the next cursor. |
| ProjectQueries.RemoveFromValue | lib/hooks/useProjects.ts:106-115 | List data is filtered, and other cached values are left as they are. |
| ProjectQueries.RemoveUpdater | lib/hooks/useProjects.ts:106-115 | An absent value is returned as absent. A present one is filtered. |
| ProjectQueries.RemoveUpdaterIdempotent | lib/hooks/useProjects.ts:106-116 | Applying the updater twice is applying it once. |
| ProjectQueries.SetWithUpdater | lib/hooks/useProjects.ts:104-116 | `setQueryData` with the updater touches exactly the given key, and does nothing when no value is there. |
| ProjectQueries.Matching | lib/hooks/useProjects.ts:63 | Invalidation and cancellation address exactly the keys that start with the given prefix. |
| ProjectQueries.RemoveUnder | lib/hooks/useProjects.ts:104-116 | The corrected removal filters every entry under the prefix and leaves the others. |
| ProjectQueries.SnapshotUnder | lib/hooks/useProjects.ts:101 | The corrected snapshot holds exactly the entries under the prefix. |
| ProjectQueries.Restore | lib/hooks/useProjects.ts:122-124 | The snapshot's entries are written back, and others are left. |
| ProjectQueries.RestoreUndoesRemoveUnder | lib/hooks/useProjects.ts:101-124 | Rollback after the corrected removal gives back exactly the previous cache. |
| ProjectQueries.RestoreUndoesSetWithUpdater | lib/hooks/useProjects.ts:101-124 | Rollback after the exact-key write gives back exactly the previous cache. |
| ProjectQueries.RemoveUnderRemovesEverywhere | lib/hooks/useProjects.ts:104-116 | After the corrected removal, no cached page under `lists()` holds the project, and the others' contents are kept. |
| ProjectQueries.ExactKeyRemovalMissesPages | lib/hooks/useProjects.ts:101-116 | When nothing is cached at exactly `lists()`, the removal as written changes nothing. |
| ProjectQueries.PagesHolding | lib/hooks/useProjects.ts:19 | A cache with one page under `list(9)` and nothing at exactly `lists()`. |
| ProjectQueries.ExactKeyRemovalCounterexample | lib/hooks/useProjects.ts:101-116 | On that cache, the code as written leaves the project on the page, and the corrected removal takes it off. |
| ProjectQueries.QueryCache.constructor | lib/hooks/useProjects.ts:51 | The shared cache starts empty, with nothing stale and nothing in flight. |
| ProjectQueries.QueryCache.GetQueryData | lib/hooks/useProjects.ts:101 | `getQueryData` returns the value under exactly the given key. |
| ProjectQueries.QueryCache.SetQueryData | lib/hooks/useProjects.ts:123 | `setQueryData` with a value writes exactly that key. |
| ProjectQueries.QueryCache.RemoveAt | lib/hooks/useProjects.ts:104-116 | The updater write at one key, as `SetWithUpdater`. |
| ProjectQueries.QueryCache.InvalidateQueries | lib/hooks/useProjects.ts:63 | Every cached key under the prefix becomes stale, and values stay. |
| ProjectQueries.QueryCache.CancelQueries | lib/hooks/useProjects.ts:98 | Every in-flight fetch under the prefix is dropped. |
| ProjectQueries.QueryCache.OnCreateSuccess | lib/hooks/useProjects.ts:61-64 | Create invalidates `lists()`. |
| ProjectQueries.QueryCache.OnUpdateSuccess | lib/hooks/useProjects.ts:82-86 | Update invalidates `detail(id)` and `lists()`. |
| ProjectQueries.QueryCache.DeleteOnMutate | lib/hooks/useProjects.ts:96-119 | Cancels list fetches, snapshots exactly `lists()`, and applies the updater there. |
| ProjectQueries.QueryCache.DeleteOnError | lib/hooks/useProjects.ts:120-125 | Writes the snapshot back when there is one, else nothing. |
| ProjectQueries.QueryCache.DeleteOnSettled | lib/hooks/useProjects.ts:126-129 | Invalidates `lists()` whether delete succeeded or failed. |
| ProjectQueries.QueryCache.DeleteMutation | lib/hooks/useProjects.ts:91-131 | The protocol as written: pages are untouched when nothing sits at exactly `lists()`, and every list is stale afterwards. |
| ProjectQueries.QueryCache.DeleteMutationAllLists | lib/hooks/useProjects.ts:91-131 | The corrected protocol: on success every cached list page loses the project, on failure the cache is exactly restored, and every list is stale afterwards. |
| ProjectEditor.InitialForm | components/projects/ProjectForm.tsx:27-37 | The form fields come from the edited project with each `\|\| default` applied, or are blank. |
| ProjectEditor.StoredItems | components/projects/ProjectForm.tsx:40-42 | There is one stored (not new) item per stored URL, in order. |
| ProjectEditor.InitialItems | components/projects/ProjectForm.tsx:40-42 | An edited project with images starts with one stored item per image URL, in order. Without a project or without images the list is empty. |
| ProjectEditor.InitialPrimary | components/projects/ProjectForm.tsx:31-43 | The primary index starts where the form's `primaryImageIndex` starts: the stored index, or 0. |
| ProjectEditor.ReopenUnchanged | components/projects/ProjectForm.tsx:40-117 | Opening a stored project and submitting it untouched sends back its image URLs and primary index. All images are kept as stored URLs and no file is uploaded. A project without images is rejected. |
| ProjectEditor.NewItems | components/projects/ProjectForm.tsx:48-56 | There is one new item per chosen file, in file order, each with its file and data URL. |
| ProjectEditor.AppendKeepsGood | components/projects/ProjectForm.tsx:51-55 | Appending new items keeps stored images before new ones, and every new item keeps its file. |
| ProjectEditor.RemoveIndex | components/projects/ProjectForm.tsx:67 | Removing index `i` drops exactly that element and keeps the order; an index out of range changes nothing. |
| ProjectEditor.RemoveKeepsGood | components/projects/ProjectForm.tsx:67 | Removing an item keeps stored images before new ones. |
| ProjectEditor.AdjustedPrimary | components/projects/ProjectForm.tsx:69-74 | After removing one of `L > 1` items with primary `p < L`, the primary index lies in the shorter list. Removing the only item resets it to 0. |
| ProjectEditor.RemoveOtherKeepsPrimary | components/projects/ProjectForm.tsx:66-75 | Removing an image other than the primary one keeps the primary index on the same image. |
| ProjectEditor.Without | components/projects/ProjectForm.tsx:94 | The filter keeps exactly the other labels. |
| ProjectEditor.WithoutAppend | components/projects/ProjectForm.tsx:94 | The filter distributes over concatenation, so the other labels keep their order. |
| ProjectEditor.WithoutKeepsNoDuplicates | components/projects/ProjectForm.tsx:91-96 | Removing a label keeps the list duplicate-free. |
| ProjectEditor.AddTechnology | components/projects/ProjectForm.tsx:81-89 | The trimmed input is appended only when it is non-empty and not yet listed, so the list stays duplicate-free. |
| ProjectEditor.Urls | components/projects/ProjectForm.tsx:115 | All item URLs, in order. |
| ProjectEditor.ExistingUrls | components/projects/ProjectForm.tsx:110 | The URLs of exactly the stored items. |
| ProjectEditor.NewFiles | components/projects/ProjectForm.tsx:107 | The files of the new items; there are never more of them than items. |
| ProjectEditor.NewFilesMembers | components/projects/ProjectForm.tsx:107 | A file is submitted for upload exactly when some new item holds it. |
| ProjectEditor.StoredCount | components/projects/ProjectForm.tsx:110 | The length of the run of stored items at the front. |
| ProjectEditor.SplitAtStoredCount | components/projects/ProjectForm.tsx:107-110 | With stored items first, the kept URLs are the first `k` items' URLs, and the new files are the rest's files, in order. |
| ProjectEditor.AllNewHaveFiles | components/projects/ProjectForm.tsx:107 | When all items are new, the files sent are the items' files, in order, and nothing is kept. |
| ProjectEditor.PrimaryUrl | components/projects/ProjectForm.tsx:117 | `items[p]?.url \|\| ''`: the chosen item's URL, or `''` when the index is out of range. |
| ProjectEditor.Submit | components/projects/ProjectForm.tsx:98-123 | Submit is rejected when there are no items. Otherwise it sends all URLs, the primary index and its URL, the kept URLs and the new files. Title, description, technologies, links and `featured` are the form's. |
| ProjectEditor.AsUpdates | components/projects/ProjectForm.tsx:113-119 | The submitted fields, with the kept URLs as `existingImages`. |
| ProjectEditor.SubmitEditWithUploads | components/projects/ProjectForm.tsx:107-118 | The service's `existing ++ uploaded` lines up with the items: position `i` is item `i`'s stored URL or its upload. The stored primary URL is the chosen item's image. |
| ProjectEditor.SubmitEditWithoutUploads | components/projects/ProjectForm.tsx:113-118 | Without uploads the service stores the form's `images` and `imageUrl = items[p].url` unchanged. |
| ProjectEditor.SubmitCreate | components/projects/ProjectForm.tsx:107-118 | A new project's files go up in item order, and the created document's images and primary URL follow them. |
| ProjectEditor.Editor.constructor | components/projects/ProjectForm.tsx:27-43 | The initial state, with stored images first. |
| ProjectEditor.Editor.AddImages | components/projects/ProjectForm.tsx:45-64 | Appends one new item per file, in order, keeping the item invariant. Nothing else changes. |
| ProjectEditor.Editor.RemoveImage | components/projects/ProjectForm.tsx:66-75 | Drops item `i` and adjusts the primary index by the removal rule, keeping the item invariant. |
| ProjectEditor.Editor.SetPrimary | components/projects/ProjectForm.tsx:77-79 | Only the primary index changes. |
| ProjectEditor.Editor.SetTechInput | components/projects/ProjectForm.tsx:276-279 | The technology input takes the typed text. Nothing else changes. |
| ProjectEditor.Editor.AddTech | components/projects/ProjectForm.tsx:81-89 | The list becomes `AddTechnology(list, input)`, and the input is cleared only when something was added. |
| ProjectEditor.Editor.RemoveTech | components/projects/ProjectForm.tsx:91-96 | Deletes that label, and nothing else changes. |
| ProjectEditor.Editor.HandleSubmit | components/projects/ProjectForm.tsx:98-123 | The result is `Submit` of the current form, items and primary index, so every field of the submission follows `Submit`'s contract. The state is left unchanged. |
| ProjectGenRoute.PromptCount | app/api/projectgen/route.ts:20 | The count is 6 when it is absent or 0. |
| ProjectGenRoute.CountLine | app/api/projectgen/route.ts:27 | The line reads "Generate ", then the decimal text of the prompt count, then " unique project ideas that are:". |
| ProjectGenRoute.DifficultyLine | app/api/projectgen/route.ts:21-31 | The difficulty line is present exactly when a difficulty other than empty or `"any"` is given. |
| ProjectGenRoute.CategoryLine | app/api/projectgen/route.ts:22-32 | The category line is present exactly when a non-empty category is given. |
| ProjectGenRoute.PromptLines | app/api/projectgen/route.ts:25-47 | The template's 23 lines: the count line, the two optional lines and the category list in their places. |
| ProjectGenRoute.BuildPrompt | app/api/projectgen/route.ts:19-48 | The prompt opens with the mentor persona and closes with the example of the JSON array the reply must be. |
| ProjectGenRoute.PromptContents | app/api/projectgen/route.ts:19-48 | The prompt contains the count line and the optional lines, and they are non-empty exactly under their conditions. |
| ProjectGenRoute.BuildPromptIgnoresPromptOption | app/api/projectgen/route.ts:19-48 | The free-text `prompt` option plays no part in the prompt. |
| ProjectGenRoute.OpeningFenceLength | app/api/projectgen/route.ts:70-74 | Strips exactly 7 characters after "```json", else 3 after "```", else none. |
| ProjectGenRoute.ClosingFenceLength | app/api/projectgen/route.ts:75-77 | Strips 3 characters exactly when the text ends with "```". |
| ProjectGenRoute.StripFences | app/api/projectgen/route.ts:69-77 | What is left is a contiguous piece after the opening fence, shortened by at most one closing fence. |
| ProjectGenRoute.CleanReply | app/api/projectgen/route.ts:69-78 | The cleaned text is a contiguous substring of the reply with no white space at either end. |
| ProjectGenRoute.CleanWithin | app/api/projectgen/route.ts:69-78 | The cleaned text sits in the reply at the computed offset. |
| ProjectGenRoute.CleanStripsJsonFence | app/api/projectgen/route.ts:69-78 | A reply wrapped as "```json … ```" cleans to its trimmed body. |
| ProjectGenRoute.CleanKeepsBareReply | app/api/projectgen/route.ts:69-78 | A reply without fences or surrounding white space is kept. |
| ProjectGenRoute.HandleGenerate | app/api/projectgen/route.ts:50-98 | A body that is not JSON gives 500 with the fixed error. Otherwise a missing key gives 500 with the key error, even for a `null` body. With a key, a `null` body gives 500 with the fixed error and no model call. A non-array parse or a failing call gives 500 with the fixed error. Every error comes with `ideas = []`. Otherwise the answer is 200 with the parsed ideas. |
| ChatRoute.TurnLine | app/api/chat/route.ts:60-62 | "User: c" for the user role, and "SyS-aI: c" for any other role. |
| ChatRoute.HistoryLines | app/api/chat/route.ts:58-62 | One line for each of the last ten turns, in order. |
| ChatRoute.HistoryText | app/api/chat/route.ts:58-63 | The transcript of an array of turns is empty exactly when there are no turns. Otherwise it ends with the latest turn's line. |
| ChatRoute.Transcript | app/api/chat/route.ts:58-63 | An absent history gives `''`. An array gives its transcript. Any other value throws. |
| ChatRoute.HistoryKeepsLastTen | app/api/chat/route.ts:59 | Turns older than the last ten play no part. |
| ChatRoute.HistorySection | app/api/chat/route.ts:66 | The "## Previous Conversation" section appears exactly for a non-empty history text. |
| ChatRoute.PromptTail | app/api/chat/route.ts:67-70 | The fixed ending: the current user line, then "SyS-aI:". |
| ChatRoute.ChatPrompt | app/api/chat/route.ts:65-70 | The prompt starts with the system text and always ends with the user line followed by "SyS-aI:". |
| ChatRoute.PromptHistorySection | app/api/chat/route.ts:65-66 | After the system text comes the history section exactly when the history text is non-empty. |
| ChatRoute.HandleChat | app/api/chat/route.ts:38-84 | A missing or non-string message gives 400, checked before the key. A missing key gives 500. A `history` that is not an array gives 500 with the fixed message, only after both checks and without a model call. Any other thrown error also gives 500 with the fixed message. Otherwise the answer is 200 with the model's text. |
| ChatSession.Outcome | lib/hooks/useChat.ts:39-53 | The reply counts as a success exactly when the response is ok and has no error. Otherwise the error text is the response's error, the default, or the thrown message. |
| ChatSession.AssistantTurn | lib/hooks/useChat.ts:44-63 | The assistant turn holds the reply, or the fixed apology on failure. |
| ChatSession.SentHistory | lib/hooks/useChat.ts:33 | The history sent has at most 10 entries and ends with the new user message. |
| ChatSession.ReplyOf | lib/hooks/useChat.ts:37-39 | The endpoint's status becomes `ok`, and its error field is passed on. |
| ChatSession.SentRequestIsValid | lib/hooks/useChat.ts:13-33 | A message the session sends always passes the endpoint's validation, and its history ends with the same user line. |
| ChatSession.EndpointAnswerReachesUser | lib/hooks/useChat.ts:39-41 | A 200 answer's text becomes the reply. A non-empty error becomes the shown error. |
| ChatSession.Session.constructor | lib/hooks/useChat.ts:8-10 | No messages, not loading, no error. |
| ChatSession.Session.SendMessage | lib/hooks/useChat.ts:12-35 | Blank content or sending while loading changes nothing. Otherwise the error is cleared, the trimmed user message is appended, loading starts and the body is returned. |
| ChatSession.Session.Receive | lib/hooks/useChat.ts:37-66 | Exactly one assistant message is appended. On failure the error is set. Loading ends. |
| ChatSession.Session.ClearMessages | lib/hooks/useChat.ts:69-72 | Empties the messages and clears the error. |
| ChatSession.Session.Exchange | lib/hooks/useChat.ts:12-67 | A completed send appends exactly two messages: the user's, then the assistant's. On success the error is null. Loading ends. |
| IdeaGenerator.Outcome | lib/hooks/useProjectGen.ts:24-31 | A non-ok status or an error field makes the call a failure, with that error or the default text. A thrown Error gives its message. |
| IdeaGenerator.ReplyOf | lib/hooks/useProjectGen.ts:22-24 | The endpoint's status becomes `ok`, with the ideas and error passed on. |
| IdeaGenerator.EndpointAnswerReachesUser | lib/hooks/useProjectGen.ts:24-28 | New ideas are shown exactly when the endpoint answered 200. Otherwise the endpoint's error text is shown. |
| IdeaGenerator.Generator.constructor | lib/hooks/useProjectGen.ts:6-9 | No ideas, not loading, no error, nothing selected. |
| IdeaGenerator.Generator.GenerateIdeas | lib/hooks/useProjectGen.ts:11-20 | Loading starts and the error clears. The body sent is the options, or `{}`. |
| IdeaGenerator.Generator.Complete | lib/hooks/useProjectGen.ts:22-34 | Success replaces the ideas wholesale. Failure sets the error and keeps the ideas. Loading ends either way. |
| IdeaGenerator.Generator.ClearIdeas | lib/hooks/useProjectGen.ts:37-41 | Resets ideas, error and selection. |
| IdeaGenerator.Generator.SelectIdea | lib/hooks/useProjectGen.ts:43-45 | Changes only the selection. |
| IdeaGenerator.Generator.Generate | lib/hooks/useProjectGen.ts:11-35 | A whole call: on success the ideas are replaced and the error is null; on failure the ideas are kept. |
| Typewriter.Substring | app/page.tsx:24-26 | `substring(0, end)` clamps the end into the string and returns a prefix. |
| Typewriter.Step | app/page.tsx:20-33 | One tick keeps the index in range. |
| Typewriter.Delay | app/page.tsx:35 | The delay is 50 ms while deleting and 100 ms while typing. |
| Typewriter.StepKeepsGood | app/page.tsx:13-33 | The typed text stays a prefix of the current title, and the index stays in [0, 5). |
| Typewriter.StepOneCharacter | app/page.tsx:23-26 | A typing tick adds exactly the title's next character. A deleting tick removes exactly the last one. |
| Typewriter.StepFlips | app/page.tsx:27-32 | The mode flips to deleting only on the full title and back to typing only on empty text. Only the second flip moves the index, by 1 mod 5. |
| Typewriter.StepN | app/page.tsx:20-35 | Any number of ticks keeps the index in range. |
| Typewriter.StepNAdd | app/page.tsx:20-35 | Ticks compose. |
| Typewriter.TypingPhase | app/page.tsx:23-24 | From empty text, `k` ticks show the title's first `k` characters. |
| Typewriter.DeletingPhase | app/page.tsx:25-26 | From the full title in delete mode, `k` ticks remove `k` characters. |
| Typewriter.Cycle | app/page.tsx:20-33 | A title takes `2·len + 2` ticks, ending on the next title's empty text. |
| Typewriter.Heading.constructor | app/page.tsx:7-9 | Nothing typed, the first phrase, typing forward, and the prefix invariant holds. |
| Typewriter.Heading.Tick | app/page.tsx:20-36 | The fields move by `Step`, the prefix invariant holds, and the next delay follows the mode. |
| FeaturedProjects.FeaturedKey | lib/hooks/useFeaturedProjects.ts:8 | `['projects','featured',limit]`, under the root key. |
| FeaturedProjects.FeaturedKeyOutsideLists | lib/hooks/useFeaturedProjects.ts:8 | The featured key does not start with `lists()`, so list invalidations never cover it. |
| FeaturedProjects.Normalise | lib/hooks/useFeaturedProjects.ts:22-36 | Id, title, description, image URL and links are the document's. A missing `images` becomes `[imageUrl]`. A missing index becomes 0, missing technologies `[]`, and a missing or false `featured` false. Missing timestamps become the current time. |
| FeaturedProjects.LegacyDocShowsImageUrl | lib/hooks/useFeaturedProjects.ts:28-29 | A legacy document shows its single `imageUrl` as the primary image. |
| FeaturedProjects.CreatedDocReadsBack | lib/hooks/useFeaturedProjects.ts:22-36 | A document written by create reads back with the values it was created with. |
| FeaturedProjects.LoadFeatured | lib/hooks/useFeaturedProjects.ts:19-38 | One normalised project per returned document, in order. |
| FeaturedProjects.FeaturedResult | lib/hooks/useFeaturedProjects.ts:11-16 | At most `limit` projects, all featured and distinct, newest first. A featured project is left out only when the list is full of newer ones. |
| FeaturedProjects.Ids | lib/hooks/useFeaturedProjects.ts:24 | The identifiers of the projects, in order. |
| RegisterForm.RegistrationError | components/auth/RegisterForm.tsx:21-27 | A mismatch is reported first, then a short password. A submission passes exactly when the entries agree and have at least 6 characters. |
| RegisterForm.Form.constructor | components/auth/RegisterForm.tsx:9-14 | Every input empty, no error, not loading. |
| RegisterForm.Form.Edit | components/auth/RegisterForm.tsx:62-115 | The inputs take the typed values. |
| RegisterForm.Form.Submit | components/auth/RegisterForm.tsx:18-33 | A rejected submission sets only the error and does not call register or touch loading. An accepted one clears the error, starts loading and sends the typed values. |
| RegisterForm.Form.Finish | components/auth/RegisterForm.tsx:32-39 | Success navigates home. Failure shows the message. Loading is false afterwards. |
| ContactForm.WithField | components/contact/ContactFormComponent.tsx:56-100 | The edited field takes the value, and the others stay. |
| ContactForm.Form.constructor | components/contact/ContactFormComponent.tsx:7-14 | Empty fields, not loading, no success, no error. |
| ContactForm.Form.Edit | components/contact/ContactFormComponent.tsx:56-100 | While a message is being sent the inputs are disabled and nothing changes. Otherwise only the edited field changes. |
| ContactForm.Form.Submit | components/contact/ContactFormComponent.tsx:16-22 | An accepted submit clears the error, starts loading and sends exactly the current name, email and message. |
| ContactForm.Form.Finish | components/contact/ContactFormComponent.tsx:21-32 | Success sets `success` and clears all three fields. Failure sets the error and keeps the fields. Loading ends. |
| ContactForm.Form.SuccessTimeout | components/contact/ContactFormComponent.tsx:27 | The confirmation timer clears `success` only. |
| ContactForm.Form.SubmitAndFinish | components/contact/ContactFormComponent.tsx:16-33 | A whole submission: the data is sent as typed; the fields are empty after success and unchanged after failure. |

## Left out

- Firestore and Storage are modelled as a map of documents and a set of blob URLs, and upload URLs come from an oracle. Query ordering, `startAfter` and `limit` belong to the store: `getProjects` starts from the returned snapshot, and the featured query is specified by what its answer satisfies.
- The `Promise.all` fan-outs for uploads and blob deletions, and the `FileReader` callbacks, are modelled as sequential loops in index order. The interleaving of concurrent completions is not modelled.
- ProjectService.Backend.UploadImages: the uploads are collected on a working copy and added to the blob store once at the end. Other operations cannot observe the store between two uploads, and the progress reports come in file order rather than in completion order.
- ProjectService.Backend.CreateProject: a failing `addDoc` or `updateDoc` is not modelled. A failing `addDoc` would leave both stores unchanged. A failing `updateDoc` after the uploads would leave the placeholder and the uploaded blobs, as a rejected upload does. Only failing uploads are modelled, as the set `failing` of file indexes.
- ProjectService.Backend.UpdateProject: a failing `updateDoc` is modelled only for a missing document. Other store errors are not modelled.
- ProjectService.Backend.DeleteImages: the deletions are applied to a working copy of the blob store, which is written back once at the end. Other operations cannot observe the store between two deletions.
- ProjectService.ReadPage, ProjectService.Backend.GetProjectById, ProjectService.Backend.DeleteProject: a rejected store call (the `getDocs` of a page, the `getDoc` of a project, the `deleteDoc`) is not modelled. The store answers every read, and the document deletion always succeeds.
- TanStack Query internals are left out: refetch scheduling, retries, garbage collection, and the refetch that invalidation triggers. Invalidation only marks keys stale.
- `ProjectQueries.RemoveFromValue`: a cached value that is not list data is returned unchanged, whereas the JavaScript updater would throw on it. Such values never sit under `lists()`.
- Time is an opaque integer (`Timestamp.now`, `new Date`, `toDate`), and timer delays are events: the typewriter's two-second hold and the contact form's five-second reset.
- Byte-level upload progress in `uploadProjectImage` is left out, because it is floating point.
- Message ids and timestamps are left out, because they use `Date.now` and `Math.random`. The carousel and particle animations are left out too.
- The chat assistant's fixed persona text is the parameter `system` of `ChatRoute.HandleChat`. The Gemini call is an oracle returning text or an error.
- `JSON.parse` is an oracle. `ProjectGenRoute.HandleGenerate` does not check the shape of the array elements, and neither does the source. A request body whose fields cannot be read (`null`) is a thrown error at the point where the source first reads a field. For /chat that is the destructuring before any check. For /projectgen it is the prompt builder, after the key check. A primitive body such as `5` has no fields, so it behaves like `{}`.
- Request fields are assumed to have their declared types. The source does not check them: a `count` of `2.5` or `"3"` is printed into the prompt as it is, and a non-string `message` or `difficulty` is used as it is. The model cannot represent such values.
- `RegisterForm.RegistrationError`: the length is counted in characters, not in JavaScript's UTF-16 code units, so a password with characters outside the Basic Multilingual Plane is counted differently.
- The browser's required-field and e-mail validation is the input `formValid` of the form `Submit` methods. Disabled buttons are modelled as submits ignored while loading. The contact form's disabled inputs are modelled as edits ignored while loading. The registration form disables only its button.
- The `alert` shown for a project without images, and the page that turns a form submission into a service call, are left out. `ProjectEditor.AsUpdates` models that page's update call.
- Auth plumbing, the contact mail template, account deletion and the presentation components are left out, because they are thin wrappers or rendering.

## Findings

| source | as written | input that shows it | evidently intended | confidence | as-written member | corrected member |
|---|---|---|---|---|---|---|
| lib/hooks/useProjects.ts:101-123 | The optimistic delete snapshots, rewrites and rolls back the exact key `['projects','list']`. `getQueryData` and `setQueryData` match keys exactly, and the pages live under `['projects','list',pageSize]` (useProjects.ts:19, 33). | A cache with one page under `['projects','list',9]` holding project `id`, and nothing at `['projects','list']`. Deleting `id` leaves it on the page until the refetch. | Remove the project from every cached list under `lists()` (`setQueriesData`), and roll back every snapshotted list on error. | not executed | ProjectQueries.ExactKeyRemovalCounterexample | ProjectQueries.QueryCache.DeleteMutationAllLists |
