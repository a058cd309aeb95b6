# A verified model of orgasmic's forum engine and its protocol kernels

The project models, in Dafny, the parts of the repository whose correctness
spans many inputs, steps or processes, and proves what they promise:

- **The forum engine.** A forum is an append-only manifest of rounds. `ForumIds`
  and `ForumPanel` hold the task-id grammar, ordinals and participants;
  `ForumRound` runs the stages of a round with every failure the daemon can
  cause; `ForumManifest` is the validator; `ForumRecord` says what a recorded
  round tells about its run; `ForumLedger` has the commands that change forums
  on disk; `ForumDiagram` reads the curator's fields. The text kernel is
  `ForumArtifact.dfy` (substitution of the orchestrator's blocks and the whole
  assembly), `ForumLanding` (where the blocks land), `ForumSections` (the checks
  around them), `ForumAcceptance` (which drafts pass), `ForumVerbatim` (what the
  blocks carry), `ForumText` (clipping, wrapping) and `Base64`.
- **Service definitions.** `ServiceUnit`, `ServiceTask`, `ServiceWrapper` and
  `ServiceXml` print a systemd unit, a Windows task and its wrapper, and parse
  the owner back; `ServiceFields` reads back the other fields.
- **The retrospective broker.** `RetroBroker` interleaves the worker's
  serialized calls with the host's bounded reply loop.
- **Provider adapters.** `ClaudePrompts` is the prompt queue, `OpenCodeStream`
  merges streamed deltas with snapshots.
- **Content ownership.** `ContentLifecycle` has two registries over one file tree.
- **The derivation script.** `Lexer` blanks literals and comments, with one law
  for each kind of token in `LexerLaws`; `Reach` closes the call graph.
- **Publishing and boot.** `ManagedRuntime` publishes binaries and rolls back,
  `BootWait` waits for a daemon.

Code that changes state step by step is a method or a class whose contract ties
the new state to a function of the old one; the theorems are lemmas about those
functions, or contracts over whole runs. What the environment decides (a daemon
call, a launch, a copy, an answer of the signing tool) is an arbitrary value in
the method or an argument of it, so every outcome is covered; a theorem that
needs a certain outcome says so in its contract. Where the code does not keep a
property for all inputs, the exact condition is proved, with a concrete failing
case.

Places where the code and its own words differ, and the code is followed:

- The comment in `run_curate` says a retry reuses reserved ids
  (`crates/orgasmic-cli/src/forum.rs:3995-4000`); the join check refuses every
  forum with a reserved curation task, so there is no retry.
- The placeholder gate asks for each placeholder once, but counts matches one
  placeholder at a time; two placeholders that share their underscores pass it.
  Such a draft can lose the image or the run stats, also where the passes agree
  with one simultaneous substitution; each block lands exactly when its
  placeholder has a match apart from the places rewritten before.
- Allocated task ids are new exactly when none of their 64-bit ordinals wraps
  around to a recorded one; where one does, the validator rejects the manifest.
- The header of `strip_noise` calls it length-preserving by construction; it adds
  one character when the text ends inside an escape of an unterminated string.
- The registry joins materialized paths by spaces, so a file name with white
  space is read back as several paths; files of the user's stay theirs exactly
  when they are not among these.
- A failed send reports its turn completed even when the turn had already ended.
- After its host has stopped, the broker's queued calls each write one more line
  before they fail, so "at most one unanswered request" holds while the host reads.

## Model

| member | source | states |
|---|---|---|
| ForumSubstitution.PassesAreScan | crates/orgasmic-cli/src/forum.rs:2079-2082 | for all drafts and all sound blocks in which no run-stats placeholder runs into another one, the three `replace` passes equal one simultaneous left-to-right substitution if and only if no diagram placeholder shares its tail with the first placeholder |
| ForumSubstitution.GateKeepsStats | crates/orgasmic-cli/src/forum.rs:2047-2057 | a draft that passes the placeholder gate never has a run-stats placeholder running into another one |
| ForumSubstitution.GatedPassesAreScan | crates/orgasmic-cli/src/forum.rs:2047-2082 | for every draft that passes the gate: sequential passes equal simultaneous substitution if and only if no diagram placeholder is lost |
| ForumSubstitution.SeparateNotLost | crates/orgasmic-cli/src/forum.rs:2047-2082 | placeholders that share no character are never lost |
| ForumSubstitution.BlocksLand | crates/orgasmic-cli/src/forum.rs:2079-2082 | with placeholders kept apart every block lands once in its own slot, the text between the slots is untouched, and only white space follows the run stats |
| ForumSubstitution.OverlapSlipsThrough | crates/orgasmic-cli/src/forum.rs:2047-2053 | the gate counts matches one placeholder at a time, so for all sound blocks and any text between the placeholders a draft with overlapping placeholders passes it, and the passes do not substitute it simultaneously |
| ForumSubstitution.OverlapResult | crates/orgasmic-cli/src/forum.rs:2079-2082 | what they make of such a draft: the section, the text and the run stats, with the uncovered part of the diagram placeholder before them |
| ForumSubstitution.LastMatch | crates/orgasmic-cli/src/forum.rs:2047-2057 | in an accepted draft the run-stats placeholder ends the trimmed text and all its matches overlap that one |
| ForumLanding.PassesFill | crates/orgasmic-cli/src/forum.rs:2079-2082 | for every draft that passes the gate, each pass rewrites one place of the draft, the leftmost match apart from the places before it, or nothing |
| ForumLanding.LandExactly | crates/orgasmic-cli/src/forum.rs:2079-2082 | the diagram and the run-stats pass rewrite their placeholder exactly once if and only if the draft has such a place for it |
| ForumLanding.LandIffSeparate | crates/orgasmic-cli/src/forum.rs:2047-2082 | when no placeholder overlaps itself, all blocks land if and only if no two placeholders share a character |
| ForumLanding.LaidOut | crates/orgasmic-cli/src/forum.rs:2079-2082 | when all blocks land, overlaps or not, each stands in its own place and the text between is the draft's |
| ForumLanding.EndExactly | crates/orgasmic-cli/src/forum.rs:2055-2082 | the result ends with the run stats, up to white space, if and only if the run-stats place is the one that ends the trimmed draft |
| ForumLanding.StatsCutResult | crates/orgasmic-cli/src/forum.rs:2079-2082 | the failing case: a diagram placeholder running into the run-stats one gives the image and a piece of the run-stats placeholder |
| ForumLanding.ImageCutResult | crates/orgasmic-cli/src/forum.rs:2079-2082 | the failing case: a first placeholder running into the diagram one gives the section and a piece of the diagram placeholder |
| ForumArtifact.EscapeIsRichText | crates/orgasmic-cli/src/forum.rs:604-623 | the three escaping steps are one substitution per character |
| ForumArtifact.EscapeCreatesNone | crates/orgasmic-cli/src/forum.rs:619-623 | a placeholder in escaped text was already in the text |
| ForumArtifact.SectionFree | crates/orgasmic-cli/src/forum.rs:2059-2073 | the verbatim section holds a placeholder only if the question, target or focus does |
| ForumArtifact.ValidBlocksSound | crates/orgasmic-cli/src/forum.rs:2200-2254 | every input that passes the question, target and focus validators gives blocks the substitution theorems apply to |
| ForumArtifact.PlainDraftAssembles | crates/orgasmic-cli/src/forum.rs:2003-2128 | every valid input with any task ids has a draft that all the checks accept and whose placeholders are apart; section, image and run stats land in their slots |
| ForumArtifact.LostDraftAssembles | crates/orgasmic-cli/src/forum.rs:2003-2128 | every valid input with any task ids also has a draft that all the checks accept and whose document is not the simultaneous substitution: the image is missing and a piece of its placeholder is left |
| ForumArtifact.CutStatsDraftAssembles | crates/orgasmic-cli/src/forum.rs:2003-2128 | and one whose document is the simultaneous substitution and has no run stats: a piece of their placeholder ends it |
| ForumArtifact.CutImageDraftAssembles | crates/orgasmic-cli/src/forum.rs:2003-2128 | and one whose document is the simultaneous substitution and has no image: a piece of its placeholder is left |
| ForumArtifact.AssembledVerbatimFirst | crates/orgasmic-cli/src/forum.rs:2084-2107 | in every assembled document, overlapping placeholders or not, no section opens before the verbatim input |
| ForumArtifact.AssembledIsScan | crates/orgasmic-cli/src/forum.rs:2003-2082 | for every valid input and accepted draft, the assembled text is the simultaneous substitution if and only if no diagram placeholder is lost |
| ForumArtifact.AssembledLandsExactly | crates/orgasmic-cli/src/forum.rs:2003-2082 | for every valid input and accepted draft: each pass rewrites its placeholder exactly once if and only if the draft has a diagram placeholder apart from the first one and a run-stats placeholder apart from both, which without self-overlaps means that no two share a character; each block is then in its own place |
| ForumArtifact.AssembledEndsExactly | crates/orgasmic-cli/src/forum.rs:2055-2082 | for every valid input, accepted draft and rendering of the run stats that ends in a tag: the artifact ends with the run stats, up to white space, if and only if the placeholder that ends the draft is the one rewritten |
| ForumArtifact.AssembledLayout | crates/orgasmic-cli/src/forum.rs:2047-2082 | for accepted drafts without overlaps: section, image and run stats stand each once, in their own slots, and only the draft's trailing white space follows (AssembledLandsExactly covers the drafts with overlaps) |
| ForumArtifact.AssembledEndsWithStats | crates/orgasmic-cli/src/forum.rs:2055-2082 | for accepted drafts without overlaps the artifact ends with the run stats, however they end, up to trailing white space (AssembledEndsExactly covers the drafts with overlaps) |
| ForumAcceptance.AssembledExactly | crates/orgasmic-cli/src/forum.rs:2003-2128 | for any task ids, a draft is assembled if and only if it holds no SVG, its placeholders count once each and the other input's is absent, the run stats come last, the document has the four titles in order with the verbatim section first, and every task id stands in the draft as a whole id; each error is reported exactly when its check is the first to fail |
| ForumAcceptance.TaskIsPresentIs | crates/orgasmic-cli/src/forum.rs:1930-1937 | a task id is found exactly when it occurs somewhere with neither a dot nor a digit behind it, although matches are counted without overlaps |
| ForumAcceptance.SvgFreeIs | crates/orgasmic-cli/src/forum.rs:637-662 | the SVG check, as positions: a data URI, or a bracket, white space and the name svg with no word character behind it, in any case |
| ForumAcceptance.SectionsListed | crates/orgasmic-cli/src/forum.rs:1908-1928 | the listed sections are exactly the closed tags before which no tag is still open, in their order, each with the title in its tag |
| ForumAcceptance.TitleIsQuoted | crates/orgasmic-cli/src/forum.rs:1913-1924 | the title of a tag is what the first `title="` and the next quote enclose |
| ForumAcceptance.Untitled | crates/orgasmic-cli/src/forum.rs:1913-1924 | a tag without such a value has the empty title |
| ForumAcceptance.SectionsRightIs | crates/orgasmic-cli/src/forum.rs:2084-2118 | the section checks pass exactly when the first listed tag has the first title and opens the verbatim section, and the required titles are first listed in their order |
| ForumAcceptance.InputExactly | crates/orgasmic-cli/src/forum.rs:2200-2254 | which questions, focuses and targets are accepted, exactly |
| ForumVerbatim.RichReadsBack | crates/orgasmic-cli/src/forum.rs:604-623 | every text can be read back from its escaped form |
| ForumVerbatim.SectionReadsBack | crates/orgasmic-cli/src/forum.rs:2059-2073 | the first section shows the question, or the target and the focus, word for word |
| ForumVerbatim.ImageCarriesDiagram | crates/orgasmic-cli/src/forum.rs:2074-2078 | the image data decode to exactly the bytes of the diagram |
| ForumVerbatim.ImageTexts | crates/orgasmic-cli/src/forum.rs:2012-2043 | the texts of the image say whose way it shows and whether there were cross-reviews |
| ForumSections.SectionTitles | crates/orgasmic-cli/src/forum.rs:1908-1928 | the scanning loop lists the section tags with their offsets and titles |
| ForumSections.FirstSectionIsFirst | crates/orgasmic-cli/src/forum.rs:1908-1928 | nothing opens a section before the first one listed |
| ForumSections.FourAccepted | crates/orgasmic-cli/src/forum.rs:2084-2120 | a document with the verbatim section and then the other three titles in order passes the section checks, whatever stands before and behind |
| ForumSections.TaskOnLine | crates/orgasmic-cli/src/forum.rs:1930-1937 | a task id on a line of its own counts as present, also when longer ids start with it |
| ForumSections.ContainsModelSvg | crates/orgasmic-cli/src/forum.rs:637-662 | the scanning loop finds exactly the data URIs and the tags named svg, in any case and with white space in between |
| ForumText.ClipValue | crates/orgasmic-cli/src/forum.rs:591-602 | the popping loop computes the clipped text, which is bounded by the limit |
| ForumText.ClippedExactly | crates/orgasmic-cli/src/forum.rs:591-602 | what fits is kept; anything longer is cut behind the last visible one of the first characters and ends in an ellipsis |
| ForumText.WordsApart | crates/orgasmic-cli/src/forum.rs:592-592 | white space separates words, whatever stands around it |
| ForumText.OneWord | crates/orgasmic-cli/src/forum.rs:592-592 | text without white space is one word |
| ForumText.ClippedIdempotent | crates/orgasmic-cli/src/forum.rs:591-602 | clipped text is normalized, and clipping it again changes nothing |
| ForumText.NormalIsFixed | crates/orgasmic-cli/src/forum.rs:592-592 | splitting at white space and joining by spaces leaves normalized text alone |
| ForumText.CutLongWord | crates/orgasmic-cli/src/forum.rs:929-951 | the inner loop cuts a word wider than a line into full lines and a rest that fits; the pieces spell the word |
| ForumText.WrapWords | crates/orgasmic-cli/src/forum.rs:926-962 | before truncation each line is its pieces joined by spaces and at most 68 wide, the pieces are those of the words in order, a word of at most 68 characters is not cut, and a line ends only where the next piece does not fit any more |
| ForumText.PiecesSpellWords | crates/orgasmic-cli/src/forum.rs:926-962 | the pieces on the lines spell out the words |
| ForumText.WrapQuestion | crates/orgasmic-cli/src/forum.rs:921-971 | exactly two lines of at most 68 characters on every input: the wrapped lines if there are at most two, else the first and the others clipped |
| Base64.Base64Encode | crates/orgasmic-cli/src/forum.rs:1885-1906 | the chunk loop computes the encoding |
| Base64.DecodeEncode | crates/orgasmic-cli/src/forum.rs:1885-1906 | a decoder written from section 4 of RFC 4648 inverts it on every byte string |
| Base64.EncodeLength | crates/orgasmic-cli/src/forum.rs:1887-1904 | four characters for every started chunk of three bytes |
| Base64.EncodePadding | crates/orgasmic-cli/src/forum.rs:1894-1903 | padding stands at the end only, as many signs as the last chunk lacks bytes |
| ForumIds.ValueOfDecimal | crates/orgasmic-cli/src/forum.rs:3213-3215 | the decimal ordinal in a task id denotes the ordinal |
| ForumIds.ReportIdIsPath | crates/orgasmic-core/src/id.rs:354-371 | a report id allocated for a forum is a task path id below that forum |
| ForumIds.OrdinalOfReportId | crates/orgasmic-cli/src/forum.rs:2476-2485 | the ordinal of a report id is read back, unless it does not fit 64 bits |
| ForumIds.MaxOrdinal | crates/orgasmic-cli/src/forum.rs:2476-2485 | no readable recorded ordinal exceeds it |
| ForumIds.MaxOrdinalIsTaken | crates/orgasmic-cli/src/forum.rs:2476-2485 | it is the ordinal of a recorded task, or zero |
| ForumIds.StageIdsFresh | crates/orgasmic-cli/src/forum.rs:2476-2486 | the ids of a stage differ from each other and from every recorded one if and only if there are at most 2^64 of them and none wraps around to a recorded ordinal |
| ForumPanel.SpecRoundTrip | crates/orgasmic-cli/src/forum.rs:398-404 | a parsed participant written into the manifest reads back the same, vendor and model included |
| ForumPanel.ParsesExactly | crates/orgasmic-cli/src/forum.rs:2131-2168 | a participant is read exactly from four visible one-line fields that name a vendor and a model |
| ForumPanel.NamedVendor | crates/orgasmic-cli/src/forum.rs:2139-2143 | with a slash, vendor and model are what stands before and behind the first one, without case and outer white space |
| ForumPanel.HarnessVendor | crates/orgasmic-cli/src/forum.rs:2144-2152 | without one, only the codex and claude harnesses tell the vendor |
| ForumPanel.SameModelAnyHarness | crates/orgasmic-cli/src/forum.rs:2136-2152 | a model named on the codex harness, and with its vendor on any other, in any case, is one reviewer |
| ForumPanel.CuratorByIndex | crates/orgasmic-cli/src/forum.rs:2832-2847 | a number names the participant of its place counted from one, and any other number is refused |
| ForumPanel.CuratorBySpec | crates/orgasmic-cli/src/forum.rs:2832-2835 | a spec of its own is read like a participant |
| ForumPanel.FieldsRoundTrip | crates/orgasmic-cli/src/forum.rs:2132-2132 | joining the four trimmed fields by commas and splitting again gives them back |
| ForumPanel.PanelRoundTrip | crates/orgasmic-cli/src/forum.rs:2320-2324 | a parsed panel is read back from the manifest unchanged |
| ForumPanel.ValidatePanel | crates/orgasmic-cli/src/forum.rs:2170-2198 | accepted exactly when large enough, without a repeated vendor/model, and every member has a ready transport |
| ForumPanel.ParseAll | crates/orgasmic-cli/src/forum.rs:3027-3030 | every raw participant parses to the panel member in its place |
| ForumRound.BlindByIndexIffUnique | crates/orgasmic-cli/src/forum.rs:3258-3280 | excluding a reviewer by index equals excluding it by identity for every reviewer if and only if the panel repeats no model |
| ForumRound.ScopeMembers | crates/orgasmic-cli/src/forum.rs:3690-3700 | a review scope holds exactly the reports of other authors |
| ForumRound.BarrierHolds | crates/orgasmic-cli/src/forum.rs:3246-3280 | when a run comes to launching a review, every first-stage dispatch is closed with a promoted, non-blank report, and the brief names exactly the other reports |
| ForumRound.FirstStageAt | crates/orgasmic-cli/src/forum.rs:3213-3255 | the first stage event by event: each participant launched on its own task with nothing to read, then each closed and its report promoted, in order |
| ForumRound.ReviewStageAt | crates/orgasmic-cli/src/forum.rs:3257-3337 | the second stage: each participant launched on its own task with the others' reports, then each closed and promoted |
| ForumRound.ReportAt | crates/orgasmic-cli/src/forum.rs:3250-3337 | each report of the round is by the participant of its place and has the path promoted for its task |
| ForumRound.WaitBarrier | crates/orgasmic-cli/src/forum.rs:2892-2926 | one retry after losing contact; a death or a timeout fails at once, a second loss leaves the workers unknown |
| ForumRound.LaunchAll | crates/orgasmic-cli/src/forum.rs:3213-3245 | launches go in panel order, each launched dispatch is listed as open |
| ForumRound.CloseAndFinish | crates/orgasmic-cli/src/forum.rs:2960-2988 | success means closed and promoted with a non-blank report; a failure may come after the close |
| ForumRound.CloseAll | crates/orgasmic-cli/src/forum.rs:3247-3255 | closing goes in order; what is marked closed was closed |
| ForumRound.BestEffortClose | crates/orgasmic-cli/src/forum.rs:2990-3001 | an abort is tried for every dispatch still marked open, and nothing else happens |
| ForumRound.RunStage | crates/orgasmic-cli/src/forum.rs:3213-3255 | the log of a stage is a cut of launch-all, close-all; the active list covers everything launched |
| ForumRound.RunStages | crates/orgasmic-cli/src/forum.rs:3178-3336 | whatever fails, both stages do a cut of their script and then only abort; they succeed exactly on the whole script; unknown workers are left open; any other failure leaves no launched dispatch neither closed nor tried to abort |
| ForumRound.RunCurated | crates/orgasmic-cli/src/forum.rs:3178-3577 | the same for a round with a dispatched curator, which comes after both stages and whose brief names all their reports |
| ForumRound.RunReviews | crates/orgasmic-cli/src/forum.rs:3832-3941 | the same for a review round, whose briefs are the identity-based scopes |
| ForumManifest.ValidateManifest | crates/orgasmic-cli/src/forum.rs:2271-2417 | the one-pass validator accepts exactly the valid manifests |
| ForumManifest.FirstRoundIsNoReview | crates/orgasmic-cli/src/forum.rs:2351-2385 | a valid manifest never opens with a review round |
| ForumManifest.RoundReportsComplete | crates/orgasmic-cli/src/forum.rs:1397-1437 | for every round of a valid manifest each recorded task has its report, in order and with a path; no slice or lookup is out of range |
| ForumLedger.AnswerKeepsValid | crates/orgasmic-cli/src/forum.rs:3357-3375 | the manifest with a recorded answer round passes its own validator if and only if no new id wraps around to a recorded one |
| ForumLedger.ReviewKeepsValid | crates/orgasmic-cli/src/forum.rs:3900-3919 | the same for a review round of selected answer rounds |
| ForumLedger.PushKeepsValid | crates/orgasmic-cli/src/forum.rs:2271-2417 | adding a valid round keeps a manifest valid if and only if its task ids are distinct and new |
| ForumLedger.NextIdsFresh | crates/orgasmic-cli/src/forum.rs:2476-2486 | the ids of the next round belong to the forum, and are distinct and new if and only if none wraps around to a recorded one |
| ForumLedger.NextIdFresh | crates/orgasmic-cli/src/forum.rs:2476-2486 | the same for the curation id |
| ForumLedger.OverflowCollides | crates/orgasmic-cli/src/forum.rs:2476-2486 | the failing case, a valid manifest whose next id is a recorded one, so that no round can be recorded any more |
| ForumLedger.SelectionIsReviewable | crates/orgasmic-cli/src/forum.rs:3664-3685 | a selection names at least one earlier answer round, each once; without a request it names all of them |
| ForumLedger.RequestedExactly | crates/orgasmic-cli/src/forum.rs:3664-3685 | a requested round is selected, alone, exactly when it is an answer round of the forum |
| ForumLedger.DefaultExactly | crates/orgasmic-cli/src/forum.rs:3664-3685 | without a request exactly the answer rounds, in order, unless there is no round |
| ForumLedger.JoinExactly | crates/orgasmic-cli/src/forum.rs:2443-2474 | a forum may be joined exactly when it is known, of the project, self-curated, open, without reserved curation and under an open parent task |
| ForumRecord.StageOneComplete | crates/orgasmic-cli/src/forum.rs:3808-3820 | every selected round hands over one report for each of its stage-one tasks |
| ForumRecord.SourcesExactly | crates/orgasmic-cli/src/forum.rs:3808-3820 | the reviewers' sources are exactly the stage-one reports of the selected rounds |
| ForumRecord.SourcesInOrder | crates/orgasmic-cli/src/forum.rs:3808-3820 | they come round by round in the order of the selection |
| ForumRecord.ScopeIsBlind | crates/orgasmic-cli/src/forum.rs:3694-3708 | a reviewer's brief names exactly the sources by another model |
| ForumLedger.AnswerIsRecorded | crates/orgasmic-cli/src/forum.rs:3318-3356 | reading back a recorded answer round gives the reports of its run: those of the first stage and then the cross-reviews, each with its author, task and promoted path |
| ForumLedger.ReviewIsRecorded | crates/orgasmic-cli/src/forum.rs:3868-3919 | the same for a review round, reviewer by reviewer, with the blind briefs they were launched with |
| ForumLedger.KeptGuarantees | crates/orgasmic-cli/src/forum.rs:2271-2486 | what is on disk after any commands: contiguous rounds starting with an answer, all task ids different, at most one round in a dispatched forum, and a curation id that is no report id if and only if it does not wrap around to one |
| ForumLedger.ReservationKept | crates/orgasmic-cli/src/forum.rs:3997-4036 | reserving and finishing a curation keeps all of that; the curation id is the next one of the forum |
| ForumLedger.EvolvesTransitively | crates/orgasmic-cli/src/forum.rs:2443-2474 | history is kept across any number of commands |
| ForumLedger.Ledger.WriteManifest | crates/orgasmic-cli/src/forum.rs:2428-2441 | writing validates, then replaces the file in one step, or changes nothing |
| ForumLedger.Ledger.RecordAnswer | crates/orgasmic-cli/src/forum.rs:3175-3375 | on success the forum has exactly one more round, with the allocated ids and promoted paths; on failure nothing changed |
| ForumLedger.Ledger.RunForum | crates/orgasmic-cli/src/forum.rs:3012-3579 | ask and critique: all forums stay valid and keep their history, a failed join changes nothing, and the validator rejects only blank metadata or ids that wrap around to recorded ones; on success the forum was joinable or is new, and its one new round has the input, the panel and, read back, exactly the reports of the run whose whole log is returned |
| ForumLedger.Ledger.RunReview | crates/orgasmic-cli/src/forum.rs:3753-3943 | review: the same; every reviewer was launched with exactly the stage-one reports of all selected rounds that are by another model, and the new round records the path promoted for each |
| ForumLedger.Ledger.RunCurate | crates/orgasmic-cli/src/forum.rs:3945-4099 | curate: success is the finished curation of a joinable forum with rounds, failure leaves the forum as it was or with exactly the reservation, and a reserved or curated forum is never touched again |
| ForumLedger.Ledger.RunAll | crates/orgasmic-cli/src/forum.rs:3012-4099 | over every run of commands all manifests stay valid and rounds are append-only |
| ForumDiagram.CollectEntries | crates/orgasmic-cli/src/forum.rs:690-776 | the entry loop accepts exactly the lists that name every task once with a readable entry, and the map holds each task's own entry |
| ForumDiagram.ParseDiagramFields | crates/orgasmic-cli/src/forum.rs:681-796 | accepted if and only if both stages are exactly covered and the summary is visible; summary and headline are the clipped ones, a headline that is not one visible line is passed over |
| ForumDiagram.ExcerptExactly | crates/orgasmic-cli/src/forum.rs:697-726 | an excerpt is read exactly from one to four visible lines, each clipped |
| ForumDiagram.DeltasExactly | crates/orgasmic-cli/src/forum.rs:728-776 | bullets are read exactly from three with each of the three tags on one, in their order, clipped |
| ForumDiagram.ReadEntry | crates/orgasmic-cli/src/forum.rs:831-875 | accepted exactly when its number is new, names a known round of its kind, has the parts of that kind and covers its tasks; it then holds what the entry says |
| ForumDiagram.SortedMatches | crates/orgasmic-cli/src/forum.rs:876-882 | different known numbers, as many as there are rounds, sorted, are one for each round in order |
| ForumDiagram.LoadDiagram | crates/orgasmic-cli/src/forum.rs:812-919 | a file is accepted if and only if it holds no model-authored SVG and has one good entry for each round (or the fields of the only round); it gives one entry for each round, in order, each in the place its number says, with the given summary and headline; the ordering check after the sort can never fail |
| ForumDiagram.LookupsDefined | crates/orgasmic-cli/src/forum.rs:1511-1790 | for a valid manifest and an accepted diagram every report that is drawn has its entry |
| ForumDiagram.ReviewedRoundsHavePlaces | crates/orgasmic-cli/src/forum.rs:1561-1562 | a drawn review reaches back to rounds that have a row |
| ServiceXml.EscapeIsEncoding | crates/orgasmic-cli/src/daemon_service.rs:1262-1269 | five escaping passes are one encoding with the entities of section 4.6 of XML 1.0 |
| ServiceXml.UnescapeInvertsEscape | crates/orgasmic-cli/src/daemon_service.rs:1389-1396 | five unescaping passes undo them on every string |
| ServiceXml.EscapedIsPlain | crates/orgasmic-cli/src/daemon_service.rs:1262-1269 | escaped text holds no markup character but the ampersand |
| ServiceTask.ExactlyOneHome | crates/orgasmic-cli/src/daemon_service.rs:1380-1387 | accepted exactly for one non-blank value; missing, empty and ambiguous are reported exactly for none, one blank and several |
| ServiceTask.XmlTagValues | crates/orgasmic-cli/src/daemon_service.rs:1364-1378 | the scanning loop returns the contents of the tag pairs, left to right |
| ServiceTask.TaskRoundTrip | crates/orgasmic-cli/src/daemon_service.rs:1221-1234 | the rendered task parses back to exactly its wrapper, for every wrapper and working directory; a blank wrapper is refused |
| ServiceUnit.SystemdUnescape | crates/orgasmic-cli/src/daemon_service.rs:1398-1428 | the byte loop computes the unescaped value or the error |
| ServiceUnit.TakeSystemdToken | crates/orgasmic-cli/src/daemon_service.rs:1292-1312 | the token loop finds the closing quote or the next white space |
| ServiceUnit.CollectTokenHomes | crates/orgasmic-cli/src/daemon_service.rs:1277-1287 | the assignment loop collects every owner home of a line |
| ServiceUnit.ParseSystemdOwnerHome | crates/orgasmic-cli/src/daemon_service.rs:1271-1290 | the line loop computes the parsed owner home |
| ServiceUnit.QuotedToken | crates/orgasmic-cli/src/daemon_service.rs:1434-1436 | a quoted argument is one token and unescapes to the argument, for every string |
| ServiceUnit.SpecHomes | crates/orgasmic-cli/src/daemon_service.rs:1186-1216 | of the environment assignments of a unit exactly one is the owner home |
| ServiceUnit.UnitRoundTrip | crates/orgasmic-cli/src/daemon_service.rs:1170-1219 | for every spec without line breaks the unit parses back to exactly its home; no other token errs; a blank home is refused |
| ServiceUnit.LineBreakBreaksUnit | crates/orgasmic-cli/src/daemon_service.rs:1170-1219 | the failing case: a line break in a field adds a second home, and the unit is refused as ambiguous |
| ServiceFields.UnitSays | crates/orgasmic-cli/src/daemon_service.rs:1170-1219 | command line, working directory, both logs and the restart rule are each on exactly one line of the unit with the value of the spec |
| ServiceFields.UnitAssigns | crates/orgasmic-cli/src/daemon_service.rs:1170-1219 | the assignments of the unit, read back, are exactly home, path, mirror switch and the scan timeout if there is one |
| ServiceFields.CommandTokens | crates/orgasmic-cli/src/daemon_service.rs:1197-1197 | the first token of the command line is the executable, for every path |
| ServiceFields.NextToken | crates/orgasmic-cli/src/daemon_service.rs:1277-1287 | several assignments on one line are all read, in order |
| ServiceFields.PlainToken | crates/orgasmic-cli/src/daemon_service.rs:1292-1312 | an unquoted word is a token up to the next white space |
| ServiceFields.OpenQuote | crates/orgasmic-cli/src/daemon_service.rs:1292-1312 | a quoted token that is never closed is malformed |
| ServiceFields.HexEscape | crates/orgasmic-cli/src/daemon_service.rs:1398-1428 | an escaped byte stands for itself, before anything |
| ServiceFields.HexDigitIs | crates/orgasmic-cli/src/daemon_service.rs:1398-1428 | the sixteen digits in both cases have their values |
| ServiceFields.BadHex | crates/orgasmic-cli/src/daemon_service.rs:1398-1428 | without two digits it is malformed |
| ServiceFields.PlainEscape | crates/orgasmic-cli/src/daemon_service.rs:1398-1428 | any other escaped character stands for itself |
| ServiceFields.Indented | crates/orgasmic-cli/src/daemon_service.rs:1271-1276 | white space before an assignment is passed over |
| ServiceFields.TagPairs | crates/orgasmic-cli/src/daemon_service.rs:1364-1378 | the tag values are the contents pair by pair, left to right |
| ServiceFields.NoTag | crates/orgasmic-cli/src/daemon_service.rs:1364-1378 | without an opening tag there is none |
| ServiceFields.TaskSays | crates/orgasmic-cli/src/daemon_service.rs:1221-1234 | the task names the working directory in its own tag, from which it is read back |
| ServiceFields.WrapperSays | crates/orgasmic-cli/src/daemon_service.rs:1236-1252 | the wrapper sets the path, changes to the directory and then starts the executable with both logs, each value read back by halving |
| ServiceWrapper.CmdRoundTrip | crates/orgasmic-cli/src/daemon_service.rs:1438-1440 | halving runs of quotes and percent signs undoes doubling them, for every string |
| ServiceWrapper.ParseWindowsWrapperOwnerHome | crates/orgasmic-cli/src/daemon_service.rs:1318-1330 | the line loop computes the parsed owner home |
| ServiceWrapper.WrapperRoundTrip | crates/orgasmic-cli/src/daemon_service.rs:1236-1252 | for every spec without line breaks the wrapper parses back to exactly its home; a blank home is refused |
| Utf8.DecodeEncode | crates/orgasmic-cli/src/daemon_service.rs:1427-1427 | decoding inverts encoding as section 3 of RFC 3629 defines it |
| Utf8.EncodeDecode | crates/orgasmic-cli/src/daemon_service.rs:1427-1427 | what decodes is exactly the encoding of the result |
| Text.LinesUnlines | crates/orgasmic-cli/src/daemon_service.rs:1273-1273 | reading back newline-terminated lines returns them, without a trailing carriage return |
| RetroBroker.HostIsStricter | crates/orgasmic-cli/src/retro.rs:90-92 | whatever line the host accepts the worker would have sent; the limits differ in unit and line end |
| RetroBroker.StepKeepsInv | provider-host/src/retro.ts:64-85 | every step of either side keeps the protocol invariant |
| RetroBroker.Protocol | provider-host/src/retro.ts:64-85 | in every interleaving: ids strictly increase, replies answer in order, no mismatch, at most 128 replies, worker-submitted implies host-submitted; the unanswered requests are the disconnect failures and the waiting one, so at most one if and only if these are at most one, as while the host reads |
| RetroBroker.RepliesReachTheirCalls | provider-host/src/retro.ts:67-84 | in every interleaving the answered calls come to what their own replies say, in order: refused exactly for a failure; the worker knows of the submission exactly when a received reply to a submission said so |
| RetroBroker.CallsInTurn | provider-host/src/retro.ts:64-85 | calls are served in the order they were made, each with its own request; the lines written are those of the calls that were neither too late nor too long, and all fit |
| RetroBroker.SilentAfterSubmission | provider-host/src/retro.ts:69-70 | once its submission was accepted the worker writes nothing more |
| RetroBroker.UnboundedAfterStop | provider-host/src/retro.ts:67-85 | after the host stopped the bound of one fails: every queued call still writes a line, so as many can stay unanswered as there are ids whose line fits |
| RetroBroker.IdsFit | provider-host/src/retro.ts:71-72 | the line of every id of up to 131053 digits fits |
| RetroBroker.Broker.Call | provider-host/src/retro.ts:66-84 | one call computes the worker's step on its counter and flag |
| RetroBroker.ReplyLoop | crates/orgasmic-cli/src/retro.rs:86-107 | the bounded loop performs the host's steps: at most 128 replies, in order, each to a line within the limit, ending with the accepted submission |
| RetroBroker.Session | provider-host/src/retro.ts:64-85 | any calls through the broker object against a host that does the host's steps are a run of the protocol, with its guarantees |
| ClaudePrompts.PromptQueue.Push | provider-host/src/claude.ts:43-48 | a value goes to the oldest parked reader or to the buffer; refused when closed |
| ClaudePrompts.PromptQueue.Close | provider-host/src/claude.ts:50-54 | all parked readers get the end, once |
| ClaudePrompts.PromptQueue.Next | provider-host/src/claude.ts:56-65 | a read takes the oldest value, the end when closed, or parks |
| ClaudePrompts.RunIsIdeal | provider-host/src/claude.ts:38-66 | in every interleaving read k gets the k-th accepted value, or the end once the queue is closed and drained |
| ClaudePrompts.SettledOnce | provider-host/src/claude.ts:38-66 | values and readers never wait at the same time, a settled read keeps its result, and after a close the buffered values come first |
| ClaudePrompts.Drive | provider-host/src/claude.ts:38-66 | the queue object, driven by any sequence of pushes, reads and closes, is the ideal queue |
| OpenCodeStream.OpenCodeState.Normalize | provider-host/src/opencode.ts:147-346 | the normalizer computes the step that the run theorems, ReportedExactly among them, are about; thread titles and permission requests are left out |
| OpenCodeStream.OpenCodeState.BeginSend | provider-host/src/opencode.ts:529-552 | a send opens a turn unless one is open |
| OpenCodeStream.OpenCodeState.FailSend | provider-host/src/opencode.ts:562-573 | a failed send closes its turn if still open and reports it completed in any case |
| OpenCodeStream.OpenCodeState.FailTransport | provider-host/src/opencode.ts:480-507 | a lost event stream closes the open turn, reports it completed and then the error |
| OpenCodeStream.StoredIsTold | provider-host/src/opencode.ts:193-235 | for every part and event sequence the stored text is a suffix of the emitted deltas, and equal to them if and only if no longer snapshot ever disagreed with the stored text |
| OpenCodeStream.StoredGrows | provider-host/src/opencode.ts:193-235 | stored text never gets shorter |
| OpenCodeStream.ReplayIsSilent | provider-host/src/opencode.ts:219-235 | replaying a snapshot at once emits no delta and changes nothing |
| OpenCodeStream.LaterReplayIsSilent | provider-host/src/opencode.ts:193-235 | nor does replaying it after any later events, sends and failures, if it was not held back for its role |
| OpenCodeStream.UnsettledIsTold | provider-host/src/opencode.ts:193-235 | the failing case: a snapshot that came before its role is told when it is replayed after it |
| OpenCodeStream.CompletionCount | provider-host/src/opencode.ts:273-573 | in every sequence of events, sends and failures a turn is reported completed exactly as often as its sends failed, and once more if an event or the transport ended it while it was open, which happens at most once |
| OpenCodeStream.ReportedExactly | provider-host/src/opencode.ts:147-573 | over every sequence everything that is reported, with its whole payload, is reported exactly as often as a step calls for it: a turn as completed for an idle event that found it open, as failed for an error, a lost transport or a failed send; a snapshot's delta as reasoning exactly when its part is |
| OpenCodeStream.ReportedInOrder | provider-host/src/opencode.ts:193-313 | within a step text comes before the completed message, that before the tool item, and the completed turn before the error |
| OpenCodeStream.RoleIsLast | provider-host/src/opencode.ts:173-188 | the role of a message is the one its last event left |
| OpenCodeStream.TurnIsOpen | provider-host/src/opencode.ts:273-573 | a turn is open if and only if a send began and no later step closed it |
| OpenCodeStream.CompletedOnce | provider-host/src/opencode.ts:273-573 | a turn is reported completed at most once if and only if none of its sends failed, or exactly one did and nothing else ended the turn |
| OpenCodeStream.EndedStays | provider-host/src/opencode.ts:273-573 | a turn that has ended stays ended, and only its failing sends report it again |
| OpenCodeStream.CompletedTwice | provider-host/src/opencode.ts:562-573 | the failing case: idle before a failing send reports the turn twice |
| OpenCodeStream.Drive | provider-host/src/opencode.ts:147-573 | the state object, driven by any such sequence, emits for every part a text that ends with what it stores, completes each turn that often, and reports everything exactly as often as a step calls for it |
| ContentLifecycle.RereadExact | crates/orgasmic-cli/src/content_lifecycle.rs:657-706 | an entry is read back from the registry as written if and only if no path holds white space |
| ContentLifecycle.ContentStore.CopyMaterialized | crates/orgasmic-cli/src/content_lifecycle.rs:431-453 | refuses a destination that exists and is not owned; touches only its destination |
| ContentLifecycle.ContentStore.MaterializePackage | crates/orgasmic-cli/src/content_lifecycle.rs:366-429 | only owned or free paths are written, nothing is removed; on success all files are there |
| ContentLifecycle.ContentStore.WriteRegistry | crates/orgasmic-cli/src/content_lifecycle.rs:665-678 | the registry becomes what a later read returns, stays, or is left torn by a write that fails |
| ContentLifecycle.ContentStore.Install | crates/orgasmic-cli/src/content_lifecycle.rs:93-158 | enable and hub install, also when failing part way: files nobody lists are untouched, nothing is removed, and short of a torn write the entry is recorded only on success |
| ContentLifecycle.CopiedContents | crates/orgasmic-cli/src/content_lifecycle.rs:366-429 | after the copies every file of the package has its own content |
| ContentLifecycle.ContentStore.RemoveMaterialization | crates/orgasmic-cli/src/content_lifecycle.rs:468-503 | only listed files go, also when failing part way; a listed registry file goes with them |
| ContentLifecycle.ContentStore.Remove | crates/orgasmic-cli/src/content_lifecycle.rs:121-172 | disable and hub remove: only listed files go; short of a torn write the entry goes only on success |
| ContentLifecycle.UpsertKeeps | crates/orgasmic-cli/src/content_lifecycle.rs:608-618 | replacing or adding an entry keeps both registries consistent if and only if its paths exist and no other entry lists one of them |
| ContentLifecycle.InstallKeepsInv | crates/orgasmic-cli/src/content_lifecycle.rs:93-158 | a successful installation keeps both registries consistent if and only if the words reading finds in its paths exist and are listed by no other entry; names without white space always do |
| ContentLifecycle.InstallClaims | crates/orgasmic-cli/src/content_lifecycle.rs:608-663 | an installation makes an unlisted path listed if and only if the path is one of those words |
| ContentLifecycle.FailedInstallKeepsInv | crates/orgasmic-cli/src/content_lifecycle.rs:366-453 | so does a failed one |
| ContentLifecycle.RemoveKeepsInv | crates/orgasmic-cli/src/content_lifecycle.rs:121-172 | so does a completed removal |
| ContentLifecycle.FailedRemove | crates/orgasmic-cli/src/content_lifecycle.rs:468-489 | a failed removal does if and only if it deleted nothing |
| ContentLifecycle.Execute | crates/orgasmic-cli/src/content_lifecycle.rs:93-172 | one command of any outcome and any file names leaves unlisted files as they are; unless a registry file is damaged, consistent afterwards exactly when clean, and an unlisted file stays unlisted exactly when not claimed |
| ContentLifecycle.RunAll | crates/orgasmic-cli/src/content_lifecycle.rs:93-172 | every run with undamaged registry files: all its states are consistent if and only if all commands were clean; a file unlisted at the start is unlisted throughout if and only if no command claimed it, and then unchanged; names without white space claim none |
| ContentLifecycle.EnableThenDisable | crates/orgasmic-cli/src/content_lifecycle.rs:93-129 | disable right after a first enable restores the registry, and the loader files if and only if no path holds white space |
| ContentLifecycle.SpaceBreaksOwnership | crates/orgasmic-cli/src/content_lifecycle.rs:93-129 | the failing case: enabling and disabling a package with a space in a file name deletes the user's file named by the first word, and leaves its own |
| ContentLifecycle.LostPathIsTaken | crates/orgasmic-cli/src/content_lifecycle.rs:121-129 | after a removal that failed part way another package can be installed on a listed path exactly because it was deleted, and then two entries list it |
| Lexer.Scan | scripts/derive-observation-surface.py:150-219 | the scanning loop computes the blanked text that the laws are about |
| Lexer.ScanToken | scripts/derive-observation-surface.py:165-218 | each branch ends its token where the token grammar says and writes its blanks |
| Lexer.StringEndAt | scripts/derive-observation-surface.py:190-198 | the inner loop finds the end of a string literal |
| LexerLaws.LineComment | scripts/derive-observation-surface.py:178-182 | a line comment becomes spaces up to the line feed, which stays |
| LexerLaws.BlockComment | scripts/derive-observation-surface.py:183-187 | a block comment becomes spaces up to and including the first terminator behind its opening |
| LexerLaws.OpenBlockComment | scripts/derive-observation-surface.py:183-187 | an unterminated one becomes spaces to the end |
| LexerLaws.RawString | scripts/derive-observation-surface.py:167-177 | a raw string not behind a word becomes spaces up to and including the first quote followed by its number of hash marks |
| LexerLaws.OpenRawString | scripts/derive-observation-surface.py:167-177 | an unterminated one becomes spaces to the end |
| LexerLaws.StringLiteral | scripts/derive-observation-surface.py:188-200 | of a string up to its first unescaped quote only the two quotes are left |
| LexerLaws.OpenString | scripts/derive-observation-surface.py:188-200 | an unterminated one is blanked between two quotes, one character longer exactly when an odd number of backslashes ends the text |
| LexerLaws.EscapedChar | scripts/derive-observation-surface.py:206-208 | an escaped character literal becomes spaces up to and including the first quote mark behind the backslash |
| LexerLaws.PlainChar | scripts/derive-observation-surface.py:209-210 | a plain character literal becomes three spaces |
| LexerLaws.OpenEscapedChar | scripts/derive-observation-surface.py:206-208 | an unterminated escaped one becomes spaces to the end |
| LexerLaws.OtherKept | scripts/derive-observation-surface.py:211-218 | every other character is kept |
| LexerLaws.ProseIsBlanked | scripts/derive-observation-surface.py:178-182 | an example: comment prose with a call and a brace leaves only spaces |
| Lexer.KeepsLength | scripts/derive-observation-surface.py:150-219 | the output is as long as the text, or one longer exactly when the text ends inside an escape of an unterminated string |
| Lexer.DanglingEndsInBackslash | scripts/derive-observation-surface.py:190-200 | that happens only when the text ends in a backslash |
| Lexer.KeepsCharacters | scripts/derive-observation-surface.py:150-219 | every output character is the text's own, a space or a quote, and one beyond the text is a quote |
| Lexer.DanglingOutput | scripts/derive-observation-surface.py:190-200 | the failing case: a quote and a backslash give three characters |
| Lexer.Idempotent | scripts/derive-observation-surface.py:150-219 | running the scanner on its output changes nothing |
| Lexer.BodyOf | scripts/derive-observation-surface.py:233-252 | the first brace and the first position where the depth is back to zero, or that there is none |
| Lexer.FindSignatureEnd | scripts/derive-observation-surface.py:255-282 | the first brace or semicolon outside parentheses and brackets, or that there is none |
| Reach.Derive | scripts/derive-observation-surface.py:476-488 | the worklist ends with exactly the least set that holds the entries and is closed under the calls of definitions that count, and with a tree of first callers |
| Reach.TakeCalls | scripts/derive-observation-surface.py:482-488 | one definition's callees are marked, parented and queued, each once |
| Reach.LeastIsUnique | scripts/derive-observation-surface.py:476-488 | there is only one such set |
| Reach.Chain | scripts/derive-observation-surface.py:490-496 | following parents from any seen key uses only call edges and reaches an entry |
| Reach.ChainIsAcyclic | scripts/derive-observation-surface.py:490-496 | no key appears twice on the way |
| Reach.PathTo | scripts/derive-observation-surface.py:490-496 | the reported path is that chain, or its last forty keys |
| ManagedRuntime.Home.Stage | crates/orgasmic-cli/src/managed_binary.rs:241-266 | staging and signing touch only the staging file, at every step; it is the source's unless it was signed again, which happens only where signing is on |
| ManagedRuntime.Home.InstallAt | crates/orgasmic-cli/src/managed_binary.rs:200-290 | at every step the destination is the whole old or the whole new file and no other file changed; the new one is the source unless it was signed again; an enforced install that reads the incumbent's identity keeps its requirement |
| ManagedRuntime.GuardExact | crates/orgasmic-cli/src/managed_binary.rs:305-383 | the guard lets through exactly the same identity when both are read, a permitted change, or anything while the incumbent's identity cannot be read |
| ManagedRuntime.Home.WriteRecord | crates/orgasmic-cli/src/daemon_runtime.rs:159-168 | at every step the record is whole, old or new |
| ManagedRuntime.Home.SetLocalSource | crates/orgasmic-cli/src/daemon_runtime.rs:70-118 | on success the record selects the published binary, whose identity is the installed one's; the installed binary and the rollback copy stay |
| ManagedRuntime.Home.Capture | crates/orgasmic-cli/src/daemon_runtime.rs:222-258 | the snapshot holds the record's bytes, and a copy of the managed binary when the record selects it |
| ManagedRuntime.Home.Restore | crates/orgasmic-cli/src/daemon_runtime.rs:260-276 | on success the record is the captured one, the copied binary is back, and without a record no override binary is left |
| ManagedRuntime.ApplyAll | crates/orgasmic-cli/src/managed_binary.rs:132-197 | over every run of updates, source overrides and clears the rollback copy stays; if the updates read the incumbent's identity and no change is permitted, the managed binary keeps its requirement once it has one |
| ManagedRuntime.UnreadLosesRequirement | crates/orgasmic-cli/src/managed_binary.rs:305-383 | the failing case: an enforced update to another identity is refused while the incumbent's identity is read, and goes through and changes the requirement while it cannot be read |
| ManagedRuntime.TryAndRestore | crates/orgasmic-cli/src/daemon_runtime.rs:222-287 | a candidate that is rolled back leaves the record as it was at the capture, with the bytes of the managed binary it selected; the installed binary keeps its requirement under the same condition |
| BootWait.WaitForStart | crates/orgasmic-cli/src/daemon_lifecycle.rs:626-679 | ends with the first round that decides, at the latest with the first at or after the budget |
| BootWait.StillBootingExact | crates/orgasmic-cli/src/daemon_lifecycle.rs:804-824 | still booting is reported exactly when the budget is used up and no known process is dead |
| BootWait.StartAnswers | crates/orgasmic-cli/src/daemon_lifecycle.rs:626-679 | which answer the start command gives when, exactly, for every answer |
| BootWait.Tracker.ObservePhase | crates/orgasmic-cli/src/daemon_lifecycle.rs:734-745 | a named new phase is recorded, nothing else |
| BootWait.Tracker.ObserveHeartbeat | crates/orgasmic-cli/src/daemon_lifecycle.rs:747-757 | a new key is recorded with the current time, nothing else |
| BootWait.Noted | crates/orgasmic-cli/src/daemon_lifecycle.rs:734-757 | phase and key are the last ones named, the time that of the last key that was new |
| BootWait.Tracker.Observe | crates/orgasmic-cli/src/daemon_lifecycle.rs:782-802 | dead process, absolute ceiling, then liveness |
| BootWait.WaitUntilReady | crates/orgasmic-cli/src/daemon_lifecycle.rs:592-622 | the autostart loop ends with the first round that decides |
| BootWait.AutoAnswers | crates/orgasmic-cli/src/daemon_lifecycle.rs:592-622 | which answer autostart gives when, exactly: a dead process before the ceiling, and that before the missing heartbeat |
| BootWait.StallMeansSilence | crates/orgasmic-cli/src/daemon_lifecycle.rs:782-802 | a stall is reported exactly when the tracker looks at a live boot below the ceiling and for a whole budget neither the wait began nor a new heartbeat key was seen |
| BootWait.NoStallWhileBeating | crates/orgasmic-cli/src/daemon_lifecycle.rs:782-802 | while a new key was seen within the budget there is no stall |
| BootWait.AutostartEnds | crates/orgasmic-cli/src/daemon_lifecycle.rs:767-776 | once every looked-at boot is over the ceiling, one budget later a round decides |
| BootWait.FixedStartOverCeiling | crates/orgasmic-cli/src/daemon_lifecycle.rs:767-776 | which holds when the boot timestamp stays fixed and both clocks are 15 minutes beyond the starts |
| BootWait.RebornNeverEnds | crates/orgasmic-cli/src/daemon_lifecycle.rs:767-776 | with a moving timestamp any number of rounds can pass undecided |

## Left out

- HTTP, process spawning, git, service managers and codesign: their answers are arbitrary values of the methods that need them.
- Text handed to models (prompts, briefs, contracts, evidence) except which reports a brief names.
- SVG coordinates and styling.
- JSON, YAML and org syntax: diagrams are JSON values, manifests and registries are records; a manifest's time stamps and contract path are read by nothing modelled.
- Commands that run at the same time on one forum: the manifest file is not locked, and one command at a time is modelled.
- The checks of a debug build on `usize` additions: ordinals wrap around, as in a release build.
- ForumRound.RunStages: a dispatch is identified by its place in the launch order, where the code compares the transaction that started it.
- ServiceUnit.UnitRoundTrip: for specs without line breaks; with one, a field can hold lines of its own, and ServiceUnit.LineBreakBreaksUnit shows a unit whose owner is not read back.
- The macOS launch agent: its property list is read by an external tool.
- RetroBroker.UnboundedAfterStop: ids are exact numbers, where the worker's are exact up to 9007199254740991.
- The worker's parsing of the first configuration line and the host's ten-minute limit: stopping at any time is a step of the model.
- The turn and tool state of the Claude message normalizer, permission tables and model selection.
- OpenCodeStream.OpenCodeState.Normalize: thread titles and permission requests are ignored events, and payloads other than text are dropped; stopping a session touches no turn and is no operation.
- ContentLifecycle.ContentStore.Remove: does not model what is inside the git checkout of a hub package, or the pruning of empty directories; loader files are never inside a checkout because a loader path is a file directly under its family.
- ContentLifecycle.RereadExact: a line break in a file name is white space like any other, where the org syntax would end the property at it.
- Selectors of optional and hub content, and the sorting of registry entries: a command names its package or the index of its entry.
- ContentLifecycle.RunAll: once a failing write or a listed registry path has damaged a registry file, nothing is promised but that each command leaves alone what nobody lists then.
- How calls are found in a body (the regular expressions of the script): a definition comes with the set of keys it calls.
- Which characters count as letters: the scanner takes that as a parameter, and Lexer.Idempotent needs only that the delimiters are not letters and that b, r and c are.
- ManagedRuntime.Home.InstallAt: does not model a destination that is still a symbolic link, where the first install moves the executed path.
- BootWait: within one polling round the clock is read once before and once after the heartbeat is noted, where the code reads it at each use.
