# TropiFloAI dashboard — a Dafny model

This project models the logic behind the TropiFloAI Streamlit dashboards and proves properties of that model.

The core is `dynamic_demo.py`, the three-page "Co-DataScientist" demo:

1. It loads a user's configuration from `config/users.json`.
2. It loads an ideas file.
3. It scans a results directory into a ranking of idea subdirectories by a metric. Each subdirectory's `results.json` supplies the value, or a name-seeded random value stands in.
4. It "processes" the first N ideas of that ranking through five timed stages, one stage per page rerun.
5. It shows the processed ideas ranked, each with one mark: a star, green or red.

The earlier single-page viewer `app.py` does two things:

- It checks a fixed login.
- It ranks the ideas by `ROC_AUC` and shows either a diff of the picked idea's candidate against the baseline, or the reason no diff can be shown.

## Modules

| file | module | what it models |
|---|---|---|
| `wrappers.dfy` | `Wrappers` | `Option` |
| `json.dfy` | `JsonValues` | parsed JSON values and `dict.get` |
| `names.dfy` | `Names` | Python's `str` ordering, and the ASCII part of `lower`, `title` and `replace("_", " ")` |
| `sorting.dfy` | `Sorting` | `sorted(..., key=..., reverse=True)`, a stable descending sort |
| `catalog.dfy` | `Catalog` | the results directory, `load_real_results` and the scan it performs |
| `config.dfy` | `Config` | `load_user_config`, including every way it fails |
| `ideas.dfy` | `Ideas` | `load_ideas_data`, the idea-data search, and the processed-idea record |
| `processing.dfy` | `Processing` | the stage machine of `process_ideas_dynamically`, and the session fields and buttons of the three pages (class `DemoSession`) |
| `ranking.dfy` | `Ranking` | the "Processed Ideas" panel: order, marks, labels, selection |
| `app.dfy` | `App` | `load_results`, the login (class `AppSession`), and what the main view shows |
| `scenarios.dfy` | `Scenarios` | a worked example: four subdirectories, a tie and a missing `results.json` |

### How the model represents the environment

- **The file system.** A directory listing is a `seq<Entry>`. Each entry is a plain file or a subdirectory.
- **`results.json`.** Its state is a `ResultsFile`: missing, unparsable, not a JSON object, or an object.
- **Files in `app.py`.** The files that exist are a `map<Path, string>` from path to text.
- **The clock.** Every `time.time()` reading is a parameter.
- **Reruns.** `Run` folds the processing step over a sequence of clock readings. This models the `time.sleep(0.5)` + `st.rerun()` loop.

### Where the processing step is specified

- `Processing.Advance` is one call of `process_ideas_dynamically`, written as a function of the session state and a clock reading.
- `DemoSession.Step` performs the same branches imperatively, including the search loop `Ideas.FindIdeaData`. It is proved to compute exactly `Advance`.

## Model

| member | source | states |
|---|---|---|
| `Names.NameLessIrreflexive` | dynamic_demo.py:53 | the name order used by `sorted(iterdir())` is irreflexive |
| `Names.NameLessTransitive` | dynamic_demo.py:53 | the name order is transitive |
| `Names.NameLessTotal` | dynamic_demo.py:53 | any two different names are ordered one way or the other |
| `Names.NameLessCommonPrefix` | dynamic_demo.py:53 | names sharing a prefix compare by what follows it |
| `Names.Lower` | dynamic_demo.py:30 | `lower()` keeps the length and lower-cases each ASCII letter in place |
| `Names.TrueTextIsFourLetters` | dynamic_demo.py:30 | only a four-character text spelling "true" in any case turns the random flag on |
| `Names.SpaceUnderscores` | dynamic_demo.py:843 | `replace("_", " ")` keeps the length and turns exactly the underscores into spaces |
| `Names.TitleSpec` | dynamic_demo.py:843 | `title()` keeps the length. A letter is upper-cased after a non-letter or at the start, and lower-cased after a letter. |
| `Names.TitleIdempotent` | dynamic_demo.py:843 | title-casing a title-cased name changes nothing |
| `Names.DisplayNameShape` | dynamic_demo.py:843 | a display name has its directory name's length and no underscore. Its spaces are exactly where the name had an underscore or a space. |
| `Sorting.SortDescMultiset` | dynamic_demo.py:71 | the ranking sort `SortDesc` returns a permutation of its input |
| `Sorting.SortDescElements` | dynamic_demo.py:672-673 | the sort keeps the length, and keeps exactly the elements of its input |
| `Sorting.SortDescSorted` | dynamic_demo.py:71 | the sort returns its input best first (non-increasing key) |
| `Sorting.SortDescStable` | dynamic_demo.py:71 | the sort is stable: elements with equal keys keep their input order, as Python's `sorted` with `reverse=True` does |
| `Sorting.SortDescDistinct` | dynamic_demo.py:71 | if no two input elements share a derived key, no two output elements do either |
| `Catalog.SortByNameSpec` | dynamic_demo.py:53 | the listing the scan walks contains exactly the directory's entries (a permutation), in strictly ascending name order |
| `Catalog.SyntheticMetric` | dynamic_demo.py:57-59 | the random-mode value lies in [0.3, 0.9], has at most four decimals, and is fixed by the name alone |
| `Catalog.CollectConcat` | dynamic_demo.py:53-70 | the records collected from a listing are those of its two halves, in order |
| `Catalog.WarningsConcat` | dynamic_demo.py:53-70 | the warnings from a listing are those of its two halves, in order |
| `Catalog.BadEntryIsSkipped` | dynamic_demo.py:64-70 | an unreadable or non-object `results.json` adds a warning and no record, and the scan carries on with the rest |
| `Catalog.ScanEntryRule` | dynamic_demo.py:54-70 | what one entry yields under the loop body `ScanEntry`. Without random mode: a record exactly when its `results.json` maps the metric to a non-null value, and a warning exactly when the file is broken. In random mode: a record for every subdirectory, and never a warning. |
| `Catalog.CollectMembers` | dynamic_demo.py:53-70 | a record is collected exactly when some entry of the listing yields it |
| `Catalog.WarningMembers` | dynamic_demo.py:53-70 | a name is reported exactly when some entry with that name is reported |
| `Catalog.InclusionRule` | dynamic_demo.py:61-71 | without random mode, a record is ranked exactly when it comes from a subdirectory whose `results.json` maps the metric to a non-null value. Its idea is the subdirectory's name and its path the subdirectory. |
| `Catalog.WarningRule` | dynamic_demo.py:61-70 | without random mode, a name is reported exactly when its subdirectory's `results.json` exists but cannot be read, parsed or queried |
| `Catalog.RandomInclusionRule` | dynamic_demo.py:55-60 | in random mode, a record is ranked exactly when it is some subdirectory's, with that subdirectory's synthetic value; plain files never are |
| `Catalog.RandomModeKeepsEveryDirectory` | dynamic_demo.py:55-60 | in random mode every subdirectory yields one record, in listing order, and nothing is reported |
| `Catalog.CollectNames` | dynamic_demo.py:60 | every collected record is named after an entry of the listing |
| `Catalog.CollectAscending` | dynamic_demo.py:53-70 | the collected records keep the listing's strictly ascending name order |
| `Catalog.RankedScan` | dynamic_demo.py:71 | ranking a name-ordered scan gives a permutation, best first, with ties in name order, and no idea twice |
| `Catalog.LoadRealResults` | dynamic_demo.py:50-71 | the loop computes the specified scan. The result is a best-first permutation of the collected records, with ties in name order and no duplicate idea. It states which subdirectories are ranked and which are reported, in both modes. |
| `Config.FromEntry` | dynamic_demo.py:21-31 | a configuration results exactly when five conditions hold: the entry is an object; it has `password` and `page_title`; `base_dir`, `baseline_file` and `ideas_file` are strings; and `random`, if present, is a string. Stored values are kept. The optional keys are read with `dict.get` (the function `JsonValues.Get`): `baseline_score` defaults to 0.51, `metric` to "ROC_AUC", and `random` to false. |
| `Config.LoadUserConfig` | dynamic_demo.py:15-34 | an unreadable file is an error. An object not listing the user gives `None` with no error. A configuration comes only from an object listing the user, and then from that user's entry. A list holding the name as a string, or a string containing it, passes the membership test and then fails on indexing (an error); otherwise either gives a silent `None`. Null, a boolean or a number is an error. |
| `Config.RequiredKeys` | dynamic_demo.py:22-27 | removing any required key from the user's entry makes the load return `None` |
| `Config.DefaultsApplied` | dynamic_demo.py:28-30 | an entry with only the required string keys gets every default |
| `Ideas.LoadIdeasData` | dynamic_demo.py:36-48 | a warning exactly when the file cannot be read or parsed. A parsed list is returned as it is; anything else becomes the empty list. |
| `Ideas.FindIdeaData` | dynamic_demo.py:834-838 | the loop finds the first idea whose `Name` matches. It returns nothing exactly when none matches. |
| `Ideas.FirstMatchSpec` | dynamic_demo.py:834-838 | the search result `FirstMatch` is the fields of the first idea whose `Name` matches, and nothing exactly when no idea matches |
| `Ideas.ProcessedForSpec` | dynamic_demo.py:834-848 | the entry appended for a record (built by `ToProcessed` from the search result) keeps the record's name, value and path. When the first idea with that `Name` is found, the title is that idea's `Title` if it has one, else the display name; the description is its `Idea` if it has one, else "No description available." |
| `Ideas.ProcessedForNoMatch` | dynamic_demo.py:834-848 | when no idea has that `Name`, the entry's title is the display name and its description "No description available." |
| `Processing.MaxIdeas` | dynamic_demo.py:521-522 | the slider maximum is `min(25, total)` |
| `Processing.DefaultIdeaCount` | dynamic_demo.py:524-525 | the slider's first value is `min(5, maximum)`, and is at least 1 when any result exists |
| `Processing.AdvanceKeepsInvariant` | dynamic_demo.py:796-861 | a step keeps three facts: the processed ideas are the ranking's first records with their idea data; the selection is one of them; and their number stays within the chosen count |
| `Processing.AdvanceSteps` | dynamic_demo.py:802-861 | one step, the function `Advance`, changes nothing unless an idea is pending and the stage's time is up. When it does act, it restarts the stage clock, and short of the last stage it advances exactly one stage. Passing the last stage appends the next ranked record and selects it. It then either finishes with the stage past the last (once the count is reached) or restarts at stage 0. |
| `Processing.AdvanceProgress` | dynamic_demo.py:822-861 | while processing, work remains. Each due step brings completion exactly one step closer. |
| `Processing.RunCompletes` | dynamic_demo.py:792-867 | with reruns at least 5 s apart and enough of them, processing ends holding exactly the first `count` ranked ideas |
| `Processing.Fresh` | dynamic_demo.py:544-548 | the reset: processing, nothing processed, nothing selected, stage 0, clock restarted |
| `Processing.FreshRunCompletes` | dynamic_demo.py:543-549 | starting with any count the slider allows completes with the first `count` ranked ideas |
| `Processing.DemoSession.constructor` | dynamic_demo.py:94-114 | the initial session: page 1, not processing, nothing processed or selected |
| `Processing.DemoSession.ChooseIdeaCount` | dynamic_demo.py:521-534 | the count is the user's pick, or else the kept value, first defaulting to `min(5, maximum)`. It always lies in 1..maximum. Nothing else changes. |
| `Processing.DemoSession.Start` | dynamic_demo.py:543-550 | the start button resets the processing fields and moves to page 2 |
| `Processing.DemoSession.BackToSetup` | dynamic_demo.py:560-562 | back to page 1, with every processing field unchanged |
| `Processing.DemoSession.RunAgain` | dynamic_demo.py:650-656 | after completion, reset the processing fields and stay on page 2 |
| `Processing.DemoSession.SelectIdea` | dynamic_demo.py:700-702 | the clicked processed idea becomes the selection; nothing else changes |
| `Processing.DemoSession.Deploy` | dynamic_demo.py:745-748 | the selected idea becomes the deployment idea, and the session moves to page 3 |
| `Processing.DemoSession.BackToResults` | dynamic_demo.py:872-874 | back to page 2, as `DeploymentPage` gives, with the processing fields unchanged |
| `Processing.DeploymentPageAsWritten` | dynamic_demo.py:872-874 | as written, the deployment page goes to page 2 exactly on the back button's click |
| `Processing.HomeUnreachableAsWritten` | dynamic_demo.py:983-998 | as written, no click leaves the deployment page for page 1; a click on the home button keeps page 3 |
| `Processing.DeploymentPage` | dynamic_demo.py:983-998 | as intended, page 1 exactly on the home button's click, page 2 exactly on the back button's, and page 3 otherwise |
| `Processing.DeploymentPageCorrection` | dynamic_demo.py:983-998 | the correction changes the outcome of the home button's click and of no other |
| `Processing.DemoSession.ReturnHome` | dynamic_demo.py:996-998 | the home button as intended: back to page 1, as `DeploymentPage` gives, with the processing fields unchanged |
| `Processing.DemoSession.Step` | dynamic_demo.py:799-861 | the imperative step computes exactly `Advance` on the session fields and keeps the session invariant |
| `Ranking.MaxOf` | dynamic_demo.py:676 | `max(values) if values else 0`: an upper bound that is one of the values, or 0 for none |
| `Ranking.Truncate` | dynamic_demo.py:687-690 | names of up to 25 characters are kept. Longer ones become their first 25 characters followed by "...". |
| `Ranking.TruncateIdempotent` | dynamic_demo.py:687-690 | a label is never longer than 28 characters, and cutting it again changes nothing |
| `Ranking.Panel` | dynamic_demo.py:678-694 | one row per idea, in the given order. Each row is captioned with its truncated display name and highlighted exactly when its name is the selected idea's. |
| `Ranking.PanelMarks` | dynamic_demo.py:676-685 | under the mark rule `Classify`, a row is starred exactly when no row's value exceeds it. The others are green at or above the threshold and red below it. |
| `Ranking.PanelMarksOrdered` | dynamic_demo.py:676-685 | on rows in non-increasing order, the marks run star, then green, then red |
| `Ranking.PanelKeepsTies` | dynamic_demo.py:672-673 | the panel's ideas are a rearrangement (multiset equality) of the processed ideas, and ideas of equal value keep the order they were processed in |
| `Ranking.PanelRanked` | dynamic_demo.py:670-678 | the panel shows every processed idea, and nothing else, best first |
| `Ranking.MarkRule` | dynamic_demo.py:672-685 | each processed idea gets exactly one mark. It is a star exactly when no processed idea beats it, so every tied maximum gets one. Otherwise it is green exactly when it reaches the inclusive threshold. |
| `Ranking.SomeStar` | dynamic_demo.py:676-681 | a non-empty panel shows at least one star |
| `Ranking.MarksInOrder` | dynamic_demo.py:672-685 | read down the panel, stars come first, then greens, then reds |
| `App.LoadResults` | app.py:16-30 | the scan with the metric `ROC_AUC` and no random mode. It returns a best-first permutation, with ties in name order and no duplicate idea. A record is ranked exactly when its `results.json` has a non-null `ROC_AUC`, and a name is reported exactly when its file is broken. |
| `App.AppSession.constructor` | app.py:53-54 | a new session is not authenticated |
| `App.AppSession.Login` | app.py:37-42 | only the exact pair admin / password123 authenticates; any other input is rejected, and the session stays logged out |
| `App.FirstAuc` | app.py:100 | `next(...)` returns the value of the first record for the picked idea |
| `App.MainView` | app.py:56-115 | the login form exactly when not authenticated, and "no ideas" exactly when the ranking is empty. Otherwise it shows the picked idea and its first value, then one of three outcomes: "candidate missing" exactly when `final_candidate.py` is absent; "baseline missing" exactly when only the baseline is absent; the diff exactly when both exist, with both files' texts. |
| `App.ShownAucIsPicked` | app.py:95-101 | on a ranking with no duplicate idea, the value shown is the picked record's own |
| `Scenarios.ExampleListing` | dynamic_demo.py:53 | a listing C, A, D, B is walked as A, B, C, D |
| `Scenarios.ExampleScan` | dynamic_demo.py:61-70 | the subdirectory without `results.json` yields nothing; the others yield one record each, in order |
| `Scenarios.ExampleRanking` | dynamic_demo.py:71 | two ideas tied at 0.80 stay in name order, ahead of the 0.60 one |
| `Scenarios.TiedCatalog` | dynamic_demo.py:50-71 | the full ranking of the example is A and B (both 0.80), then C (0.60) |
| `Scenarios.TiedMarks` | dynamic_demo.py:675-685 | against the default baseline 0.51, both tied ideas are starred and the third is green |

## Left out

- **Rendering.** Streamlit layout, CSS, headers, logos, progress bars, "Processing Idea n of N", stage dots and percentages, and number formatting (`:.4f`). These are display only.
- **The clock.** One clock reading is a parameter of each step. The source calls `time.time()` up to three times in one step, at lines 820, 826 and 861; the model uses one reading for all of them.
- **`time.sleep(0.5)` and `st.rerun()`.** These are modelled only as the sequence of readings that `Run` consumes.
- Catalog.SyntheticMetric: does not compute CPython's value. `str` hashes are salted per process, and the Mersenne Twister behind `random.uniform` is not modelled. The stand-in `Catalog.NameHash` keeps only the shape: a value below 2^32 fixed by the name. `SyntheticMetric` keeps a value in [0.3, 0.9] with four decimals.
- Catalog.LoadRealResults, App.LoadResults: always receive a listing. A base directory that is missing, not a directory or unreadable makes `base_dir.iterdir()` (dynamic_demo.py line 53, app.py line 19) raise outside any `try`, and the page ends with that exception. The model has no outcome for it.
- **The real file system and JSON parsing.** Directories, `results.json` and the config and ideas files are given as parsed values. `sorted(base_dir.iterdir())` is modelled as sorting by name within one directory, as POSIX paths compare.
- **Metric values that are non-null and non-numeric.** The model's `Stored` type holds only numbers and null, so such values are outside the model. The source appends them. The final `sorted` raises outside the `try` only when it must compare two values that cannot be ordered, a string and a number say. Strings among themselves sort, and JSON booleans order as 0 and 1.
- **A non-string `metric` setting.** `Config.UserConfig` keeps it as a JSON value, but `Catalog.LoadRealResults` takes the metric as a string. A number as the metric would skip every directory, because `data.get` finds no such key. A list would make `data.get` raise inside the `try`, so every directory with an object `results.json` would be warned about.
- **A non-numeric `baseline_score`.** It is kept as a JSON value in `Config.UserConfig`. The panel takes the threshold as a number.
- **Floating point.** Values are exact reals, so there is no rounding of comparisons.
- **Unicode case mapping.** `lower` and `title` are modelled on ASCII letters only.
- **`diff_viewer`.** The model stops at the two texts it would receive. The details panel and its download and diff sections of `dynamic_demo.py` (lines 720-790) are display only.
- **The deploy button's condition.** `Processing.DemoSession.Deploy` requires a selected idea, but not that its `final_candidate.py` exists, which the source checks before showing the button.
- **The deployment form (lines 869-998).** It is display only. Its navigation is modelled by `DeploymentPage`, `BackToResults` and `ReturnHome`; see Findings for the home button.
- **Page 1 gating.** The upload and goal steps (lines 494 and 514) only decide whether the slider and the start button are shown. `ChooseIdeaCount` and `Start` model those two controls.
- **An empty ranking on the setup page.** `ChooseIdeaCount` requires at least one result. With none, `st.slider(min_value=1, max_value=0)` raises.
- Ideas.FindIdeaData, Processing.Advance: require every item of the ideas list to be an object. The search loop (lines 835-838) stops at the first match, so the source also handles lists with a non-object item after the match, such as `[{"Name": "a"}, 7]` searched for "a"; those lists are outside the model. `idea.get` raises only on a non-object item reached before any match.
- **The init-if-missing of `current_stage` and `stage_start_time` (lines 588-591, 813-816).** The fields always exist in `DemoSession`, because the only ways onto page 2 set them. They start as placeholders.
- **`st.cache_data`.** Caching does not change results within one data set.
- **A candidate or baseline file that disappears between the existence check and the read in `app.py`.** `App.MainView` reads only files that exist.
- **`app.py`'s `if not selected` on an idea named by the empty string.** The model treats any non-empty ranking as having a selection.
- **`run_streamlit_with_ngrok.py`.** It is a launcher: processes, ports and tunnelling. It is not part of this model.

## Findings

| source | as written | input that shows it | evidently intended | confidence | as-written member | corrected member |
|---|---|---|---|---|---|---|
| dynamic_demo.py:983-998 | The "Return to Home" button is created inside the branch of the "Deploy Model to Production!" button. A Streamlit button reads true only in the rerun its own click starts. | Click "Deploy Model to Production!", then "Return to Home". The second click starts a rerun in which the deploy button reads false. Lines 996-998 are not reached and the page stays 3. | The home button leads to page 1. | not executed; rests on Streamlit's documented button behaviour | `Processing.HomeUnreachableAsWritten` | `Processing.DeploymentPage` |
