# Instagram export refinement: transform and attest

This project models the transform-and-attest core of an Instagram data-refinement
pipeline. The pipeline takes one raw Instagram data export, written as JSON, and does three
things with it:

- it validates the export against a typed schema (`InstagramData` and its nested records);
- the **transformer** turns the validated export into an ordered list of anonymised analytic
  records: a user profile; posts with their media; stories; comments; direct messages;
  engagement snapshots; a hashtag-usage aggregate; and an (hour, weekday) activity histogram;
- the **proof generator** attests the raw export. Its attestation holds:
  - five content hashes, each over a fixed subset of fields;
  - the collection sizes;
  - a capped, additive confidence score;
  - a label for how the export was probably obtained.

The PII helpers behind both are modelled too: unsalted SHA-256 text hashing,
case-insensitive username hashing, e-mail masking and the analytical bio summary.

Modules, one per concern, each in its own file:

| module | file | what it holds |
|---|---|---|
| `Results` | results.dfy | `Option` and `Result` |
| `Json` | json.dfy | JSON values; an object is a `map`, so key order does not matter, as with `sort_keys=True` |
| `Digests` | digests.dfy | the foreign primitives: SHA-256 hex, MD5 hex and canonical `json.dumps`. They are the fields of an `Oracles` parameter; `WellBehaved` states their output shape. |
| `Timestamps` | timestamps.dfy | timestamps as an instant in microseconds since the epoch plus the UTC offset of their wall clock; hour and weekday are read off the wall clock; the timestamp parser is a `Parser` parameter |
| `Text` | text.dfy | ASCII lower-casing; `str.split()` words; substring search |
| `Pii` | pii.dfy | `hash_text`, `hash_username`, `mask_email`, `anonymize_bio` |
| `Unrefined` | unrefined.dfy | the raw export records; the validator (`model_validate`), which collects every violation; an encoder that serves as its round-trip partner |
| `Refined` | refined.dfy | the analytic output records |
| `Multiplicity` | multiplicity.dfy | counting occurrences in sequences, the vocabulary of the conservation laws |
| `Hashtags` | hashtags.dfy | the hashtag grouping loop and its records |
| `Activity` | activity.dfy | the activity-histogram loops and their records |
| `Transformer` | transformer.dfy | `transform` and its `_create_*` helpers, with timestamp parsing, record layout and failure paths |
| `Privacy` | privacy.dfy | non-interference: the output depends on an export only through the hashes and lengths the transformer is meant to see |
| `ProofGenerator` | proof_generator.dfy | `generate_proof`, the field-subset documents, the score and the method classifier |
| `Scenarios` | scenarios.dfy | worked examples derived from the general contracts |

The transformer hashes the profile username with `hash_text`, not with `hash_username`, so
the profile's username hash is not case-folded (refiner/transformer/instagram_transformer.py:71).
The model keeps that behaviour: two profiles whose usernames differ only in case get different
inputs to the hash. Hashtags, in contrast, are lower-cased before hashing (line 202).

## Model

| member | source | states |
|---|---|---|
| Pii.HashText | refiner/utils/pii.py:21-34 | the empty text hashes to the empty text and only it does; any other text becomes 64 lower-case hex characters |
| Pii.HashUsername | refiner/utils/pii.py:36-46 | the username hash is empty exactly for the empty username; any other username becomes 64 lower-case hex characters |
| Pii.HashUsernameIgnoresCase | refiner/utils/pii.py:36-46 | usernames that differ only in ASCII letter case have the same hash |
| Pii.AliceIsAlice | refiner/utils/pii.py:46 | "Alice" and "alice" hash to the same username hash |
| Multiplicity.FirstIndex | refiner/utils/pii.py:16 | the position found holds the value, and no earlier position does |
| Pii.SplitAtFirstAtJoins | refiner/utils/pii.py:16 | the split at the first '@' rejoins to the address; the local part has no '@' |
| Pii.MaskEmail | refiner/utils/pii.py:3-19 | text with no '@', the empty text included, comes back unchanged; otherwise the domain after the first '@' ends the result verbatim |
| Pii.MaskEmailKeepsDomain | refiner/utils/pii.py:16-19 | splitting a masked address at its first '@' yields the MD5 of the original local part and the original domain, even when the domain contains '@' |
| Pii.AnonymizeBio | refiner/utils/pii.py:48-75 | an absent or empty bio gives the all-zero summary; otherwise: length; the count of word starts after whitespace; `#`; `@` and `.`; URL markers anywhere in the text |
| Pii.UrlInSomeWord | refiner/utils/pii.py:72 | looking for "http" or "www." word by word finds a marker exactly when the whole bio contains one |
| Text.WordCountIsWordStarts | refiner/utils/pii.py:67-71 | the number of `split()` words is the number of places where a non-space follows whitespace or the start |
| Text.ContainsIffSomeWord | refiner/utils/pii.py:72 | a whitespace-free pattern occurs in a text exactly when it occurs in one of its words |
| Unrefined.DecodeProfile | refiner/models/unrefined.py:6-15 | a profile without `is_verified`, `is_private` or `bio` decodes to false, false, absent; a failure names at least one violation |
| Unrefined.DecodePost | refiner/models/unrefined.py:22-30 | absent hashtags are empty; absent caption and location are None; a post without `media` is rejected as missing it |
| Unrefined.DecodeComment | refiner/models/unrefined.py:39-45 | an absent comment `like_count` is 0 |
| Unrefined.DecodeDM | refiner/models/unrefined.py:47-54 | an absent message text is None; a message without `sender_username` or `conversation_id` is rejected as missing it |
| Unrefined.DecodeEngagement | refiner/models/unrefined.py:56-61 | an absent `website_clicks` is 0 |
| Unrefined.Validate | refiner/models/unrefined.py:63-71 | only an object can validate; a rejection always names a violation |
| Unrefined.ItemsReports | refiner/models/unrefined.py:66-70 | a violation inside any element of a list is reported, located at that element's index, whatever the other elements hold |
| Unrefined.ListReports | refiner/models/unrefined.py:66-70 | a violation inside any element of a list field is reported under the field's name and the element's index |
| Unrefined.ValidateCollects | refiner/models/unrefined.py:63-71 | every violation reported by any of the eight fields is in the validation error |
| Unrefined.ValidateReportsElements | refiner/models/unrefined.py:66-70 | a violation inside any post, story, comment, message or snapshot is in the validation error, under the collection's name and the element's index, so one failing element never hides another |
| Unrefined.ValidateRequired | refiner/models/unrefined.py:63-71 | an object without `user_id`, `profile` or `data_export_timestamp` is rejected and that field is reported missing |
| Unrefined.ValidateDefaults | refiner/models/unrefined.py:63-71 | an accepted export carries the document's id and export timestamp; each of the five collections the document omits is empty |
| Unrefined.ValidateEncodeRoundTrip | refiner/models/unrefined.py:6-71 | every export, written out as JSON, validates back to itself |
| Unrefined.PostRoundTrip | refiner/models/unrefined.py:17-30 | every post, with its media, decodes back from its JSON encoding |
| Unrefined.ProfileRoundTrip | refiner/models/unrefined.py:6-15 | every profile decodes back from its JSON encoding |
| Unrefined.DMRoundTrip | refiner/models/unrefined.py:47-54 | every direct message decodes back from its JSON encoding |
| Transformer.ParseAll | refiner/transformer/instagram_transformer.py:34 | parsing succeeds exactly when the parser accepts every text; it then yields each text's timestamp in place; otherwise the error carries the first rejected text |
| Transformer.ParseDates | refiner/transformer/instagram_transformer.py:22-63 | every timestamp is parsed in the transform's order (export date, posts, stories, comments, messages, metrics); the first rejected one aborts; on success each date belongs to its record |
| Transformer.ProfileRecordFields | refiner/transformer/instagram_transformer.py:65-80 | the profile record carries the export's user id; `hash_text` of the username and of the full name, not case-folded; the bio length, 0 exactly for an absent or empty bio; the counts and flags as given; the export date; no account age |
| Transformer.TextLength | refiner/transformer/instagram_transformer.py:96 | the length is 0 exactly for an absent or empty text, and the text's length otherwise |
| Transformer.EngagementRate | refiner/transformer/instagram_transformer.py:90-91 | 0 without followers; otherwise rate × followers = (likes + comments) × 100 |
| Transformer.EngagementRateExample | refiner/transformer/instagram_transformer.py:90-91 | 18 likes and 2 comments give 10.0 at 200 followers, and 0 at 0 followers |
| Transformer.MediaRecords | refiner/transformer/instagram_transformer.py:108-113 | one media record per media item, in order, each carrying the post's id |
| Transformer.CreatePosts | refiner/transformer/instagram_transformer.py:82-115 | one post record per post plus one per media item; every post record carries the export's user id |
| Transformer.PostRecordFields | refiner/transformer/instagram_transformer.py:93-104 | the post record carries the post id, the user id and the post date; like and comment counts as given; media count; hashtag count; the caption length, 0 exactly for an absent or empty caption; a location flag true exactly for a present non-empty location; the engagement rate as above |
| Transformer.PostBlockLayout | refiner/transformer/instagram_transformer.py:86-113 | post i's record sits after the earlier posts and their media, followed at once by exactly its own media records |
| Transformer.CreateStories | refiner/transformer/instagram_transformer.py:117-133 | one record per story, in order, holding the story's id, media type and view count, the export's user id and the story's own date |
| Transformer.CreateComments | refiner/transformer/instagram_transformer.py:135-153 | one record per comment, in order, with the export's user id and the comment's own date; comment id, post id and like count as given; the text replaced by its length and the author by `hash_text` of the author |
| Transformer.CreateDirectMessages | refiner/transformer/instagram_transformer.py:155-173 | one record per message, in order, with the export's user id and the message's date; message id and type as given; the conversation id replaced by its `hash_text` and the text by its length (0 when absent); `is_sender` holds exactly when the sender equals the profile username in clear text |
| Transformer.CreateEngagementMetrics | refiner/transformer/instagram_transformer.py:175-192 | one record per snapshot, in order, with the export's user id, the snapshot's date and its profile views, reach, impressions and website clicks as given |
| Transformer.PostTagUses | refiner/transformer/instagram_transformer.py:200-202 | each hashtag occurrence of a post, repeats included, keyed by the hash of its lower-cased text and dated by its post |
| Transformer.TagUses | refiner/transformer/instagram_transformer.py:197-202 | the uses number exactly the hashtag occurrences over all posts |
| Transformer.TagUsesContents | refiner/transformer/instagram_transformer.py:199-202 | a use is listed exactly when some hashtag of some post hashes to its key and that post's date is its date |
| Transformer.HashtagSpanFromPosts | refiner/transformer/instagram_transformer.py:199-209 | every hashtag record's first and last dates are the dates of posts carrying a hashtag with that record's hash |
| Transformer.TransformData | refiner/transformer/instagram_transformer.py:36-40 | the record list is never empty, and its first record is the profile record built with the export date |
| Transformer.OutputLayout | refiner/transformer/instagram_transformer.py:36-63 | profile first; then posts with media, stories, comments, messages, metrics, hashtag and activity records, no section revisited; one record per input record plus the aggregates; all but media carry the user id |
| Transformer.TransformValid | refiner/transformer/instagram_transformer.py:34-63 | a validated export transforms exactly when every timestamp parses, and then into the records built from those dates; otherwise the first bad timestamp is reported |
| Transformer.Transform | refiner/transformer/instagram_transformer.py:22-63 | an invalid document is rejected with all its violations before any timestamp is parsed; a valid one goes on to the transform proper |
| Hashtags.TallySummarizes | refiner/transformer/instagram_transformer.py:197-209 | invariant of the grouping loop: one entry per distinct hash, listed by the position of its first use; the number of uses; first and last date are dates of uses and bound them all |
| Hashtags.CreateHashtagUsage | refiner/transformer/instagram_transformer.py:194-221 | one record per distinct hash, none twice, every used hash present; count = uses of that hash, at least 1; first ≤ last, both dates of uses, bounding every use |
| Hashtags.UsageInFirstUseOrder | refiner/transformer/instagram_transformer.py:197-219 | the records come in the order in which their hashes are first used, as a dictionary iterates in insertion order |
| Hashtags.UsageConserved | refiner/transformer/instagram_transformer.py:197-219 | the usage counts of all records add up to the number of hashtag uses given, repeats included |
| Timestamps.Hour | refiner/transformer/instagram_transformer.py:233 | the hour lies in 0..23 and is the hour of the day on the timestamp's own wall clock |
| Timestamps.Weekday | refiner/transformer/instagram_transformer.py:233 | the weekday lies in 0..6, Monday being 0, and is the day of the week on the timestamp's own wall clock |
| Timestamps.WallClockExample | refiner/transformer/instagram_transformer.py:233 | 2024-01-01 23:30 at UTC+05:00 falls in hour 23 of a Monday, although the same instant is 18:30 in UTC |
| Activity.GroupSpec | refiner/transformer/instagram_transformer.py:226-252 | after the four counting loops each counter counts its kind's activities in its bucket; the buckets present are exactly the active ones, each listed once with a positive total |
| Activity.CreateActivityPatterns | refiner/transformer/instagram_transformer.py:223-266 | one record per active (hour, weekday) bucket, none twice, none missing; hour 0..23, day 0..6; per-kind counts; positive total |
| Activity.PatternsInFirstActivityOrder | refiner/transformer/instagram_transformer.py:223-264 | the records come in the order in which their (hour, weekday) buckets are first touched, over posts, then stories, comments and messages, as a dictionary iterates in insertion order |
| Activity.ActivityConserved | refiner/transformer/instagram_transformer.py:226-264 | for each kind, the counters over all records sum to the number of activities of that kind |
| Privacy.TransformSeesOnlyView | refiner/transformer/instagram_transformer.py:65-192 | two exports that agree on hashes of identifying texts, lengths of free texts and the non-identifying fields give the same records |
| Privacy.FreeTextNeverReachesOutput | refiner/transformer/instagram_transformer.py:71-73 | replacing the bio by another of the same length, dropping the picture URL and changing a message's recipient leave the records unchanged |
| ProofGenerator.ProfileDocumentSubset | refiner/utils/proof_generator.py:69-80 | two profiles have equal hashed documents exactly when they agree on username, full name, the three counts and the two flags |
| ProofGenerator.ProfileHashIgnoresBio | refiner/utils/proof_generator.py:69-80 | changing the bio or the profile picture URL leaves the profile hash unchanged |
| ProofGenerator.PostEntrySubset | refiner/utils/proof_generator.py:82-95 | two posts have equal hashed entries exactly when they agree on id, timestamp, like count, comment count and media count |
| ProofGenerator.StoryEntrySubset | refiner/utils/proof_generator.py:97-109 | two stories have equal hashed entries exactly when they agree on id, timestamp, view count and media type |
| ProofGenerator.StoriesHashIgnoresUrl | refiner/utils/proof_generator.py:97-109 | changing one story's media URL leaves the stories hash unchanged |
| ProofGenerator.CommentEntrySubset | refiner/utils/proof_generator.py:111-123 | two comments have equal hashed entries exactly when they agree on id, post id, timestamp and like count |
| ProofGenerator.CommentsHashIgnoresText | refiner/utils/proof_generator.py:111-123 | changing one comment's text or author leaves the comments hash unchanged |
| ProofGenerator.MessageEntrySubset | refiner/utils/proof_generator.py:125-137 | two messages have equal hashed entries exactly when they agree on id, conversation, timestamp and type |
| ProofGenerator.PostsDocumentPositional | refiner/utils/proof_generator.py:82-95 | two post lists have equal documents exactly when they are equally long and agree entry by entry, in order |
| ProofGenerator.PostsHashIgnoresCaptionAndTags | refiner/utils/proof_generator.py:82-95 | changing one post's caption, hashtags or location leaves the posts hash unchanged |
| ProofGenerator.MessagesHashIgnoresText | refiner/utils/proof_generator.py:125-137 | changing one message's text, sender or recipient leaves the messages hash unchanged |
| ProofGenerator.PostsDocumentOrderMatters | refiner/utils/proof_generator.py:82-95 | swapping two posts with different ids changes the hashed document |
| ProofGenerator.ConsistencyTrichotomy | refiner/utils/proof_generator.py:157-160 | post-count consistency is 0.1 exactly on equality, 0.05 exactly on a difference of 1 to 5, 0 exactly beyond |
| ProofGenerator.ConfidenceScore | refiner/utils/proof_generator.py:139-174 | the score lies in [0.0, 1.0] |
| ProofGenerator.ScoreInTwentieths | refiner/utils/proof_generator.py:144-174 | the score equals an independent count of twentieths between 4 and 20, so the cap never binds |
| ProofGenerator.ScoreMonotone | refiner/utils/proof_generator.py:153-172 | an export at least as evident (metrics, comments or messages, verified), equal elsewhere, scores at least as high |
| ProofGenerator.AddingEvidence | refiner/utils/proof_generator.py:153-172 | adding a metric, a comment or a message, or setting verified, never lowers the score |
| ProofGenerator.DetermineMethod | refiner/utils/proof_generator.py:176-194 | an export with engagement metrics is labelled an official export; a comprehensive label implies the export has stories |
| ProofGenerator.MethodCharacterised | refiner/utils/proof_generator.py:176-194 | each label's exact condition given rule priority; metrics decide alone; comprehensive needs stories |
| ProofGenerator.LabelsDistinct | refiner/utils/proof_generator.py:182-194 | the four labels are pairwise distinct |
| ProofGenerator.GenerateProof | refiner/utils/proof_generator.py:19-67 | the attestation carries the export's user id, export timestamp and profile fields, the generation time given, the collection sizes and `hash_text` of the username; each of the five hashes is the digest of its field-subset document; the score is the confidence score, in [0, 1]; the label is that of the method classifier, "official_data_export" whenever there are metrics; both optional fields are absent |
| ProofGenerator.OnlyTheClockDiffers | refiner/utils/proof_generator.py:41 | two attestations of one export differ at most in the generation time |
| Scenarios.SunAndSun | refiner/transformer/instagram_transformer.py:197-219 | `#Sun` and `#sun` on two posts give one record, count 2, spanning both dates |
| Scenarios.OnePostOneBucket | refiner/transformer/instagram_transformer.py:223-264 | a lone post gives one activity record, for its hour and weekday, counting 1, 0, 0, 0 |
| Scenarios.SmallExportProof | refiner/utils/proof_generator.py:147-186 | the small export scores 0.2 + 0.2 + consistency + 0.1 and is labelled "api_scraping" |
| Scenarios.SmallExportRecords | refiner/transformer/instagram_transformer.py:36-63 | the small export yields four records: profile; post with rate 10.0 and two hashtags; one hashtag record counting 2; one activity record |

## Left out

- The batch driver (refiner/refine.py): directory listing, file reading, schema writing, encryption and upload are I/O and external services.
- The ORM tables (refiner/models/refined.py) and the proof container (refiner/models/proof.py) are mirrored only as plain records. Autoincrement ids, relationships and `json_encoders` are left out.
- SHA-256, MD5 and `json.dumps(sort_keys=True)` are foreign library calls. They are parameters, assumed only deterministic and to have hex output of length 64 and 32. The hashes are therefore stated on the documents they digest: "reordering posts changes the posts hash" is proved as "changes the hashed document", because nothing rules out collisions.
- refiner/utils/date.py is not part of this model. The timestamp parser is a partial-function parameter, and a rejection aborts the transform.
- The source parses timestamps again inside the aggregate loops: each post's in the hashtag loop, and each post, story, comment and message timestamp in the activity loops. The model parses each once, which is the same for a deterministic parser.
- The clock read `datetime.now()` is the `now` parameter of `GenerateProof`.
- Pydantic's lax coercion (e.g. `"5"` accepted as 5) is not modelled. The validator is strict about JSON types: strings, integers, booleans, lists, objects and null for optional fields.
- Floating point: the confidence score and the engagement rate are exact reals. Python's rounding of 0.2 + 0.1 + … is not modelled, and neither is the int-versus-float type of a zero engagement rate.
- `str.lower()` folds ASCII letters only. `str.split()` uses the full set of characters Python treats as whitespace.
- Mixing timezone-aware and naive timestamps, and the `TypeError` Python raises on comparing them, is left to the parser. A naive timestamp is read as UTC with offset 0; comparisons use the instant and hour and weekday use the wall clock.
- `hash_text` raising on non-text input cannot happen, since its argument is typed as text.
- The account age and the proof's API-responses field are never filled in by the source; they are modelled as always absent.
