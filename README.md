# Audio metadata filter

A Dafny model of the filtering logic of an audio dataset dashboard. The
dashboard keeps a table of audio-file metadata. Each row holds a filename, a
duration in seconds, a channel, a hearing-aid flag, a volume in dB, an upload
date, 24 audiogram gains, a file type, a hearing-aid hardware type, a
microphone position, a receiver flag and a WOLA block size. The user narrows
the table with sidebar widgets. The model covers the two variants of that
filter in the source:

- `filter_audio_metadata` in `audio_data_utils.py` (module `AudioDataUtils`).
  It keeps the rows that pass all nine of its criteria at once: `hearing_aid` equals the
  given value, duration and volume lie in inclusive ranges, and file type,
  hardware type, microphone position, receiver, WOLA type and channel each
  belong to an inclusion list.
- The inline filter of `AudioUploadDashboard.py` (module
  `AudioUploadDashboard`). It builds criteria from the sidebar widgets. When
  the "Hearing Aid" selectbox is not "yes", the hardware, microphone and
  receiver criteria become every value seen in their columns. The mask then
  always demands `hearing_aid == "yes"` and has no channel condition.

Pandas boolean-mask indexing `df[mask]` is modelled once, in module
`Selection`, as `Select(s, keep)`: the rows that the per-row predicate
`keep` accepts, in table order. Both filters are `Select` with their own
predicate. Module `Metadata` holds the row type, the column value sets
(`df[col].unique()`, kept as sets because only `isin` membership reads them)
and the column minimum and maximum of `volume_db`.

The widget values (selectbox, sliders, multiselects) are parameters, gathered
in `SidebarInput`. What the widgets can return is the predicate `Admissible`:
a selectbox option, picks among each multiselect's options, and ordered slider
ends within the slider's bounds. Lemmas that depend on the widgets take it as
a precondition.

Two points of the code shape the model:

- `filter_audio_metadata` tests `channel` as well as the other eight
  criteria (audio_data_utils.py:28), so `AudioDataUtils.Matches` has nine
  tests, one per argument after the table.
- The dashboard mask hard-codes `hearing_aid == "yes"`
  (AudioUploadDashboard.py:58) whatever the "Hearing Aid" selectbox says, and
  never reads `cchannel_filter` (AudioUploadDashboard.py:42). The model keeps
  both as written and proves them (`DashboardAlwaysHearingAid`,
  `DashboardDefaultView`, `DashboardIgnoresChannelChoice`,
  `DashboardIgnoresChannel`). `DashboardAsLibrary` shows that the dashboard
  mask equals `filter_audio_metadata` with the hearing value "yes" and every
  channel allowed.

## Model

| member | source | states |
|---|---|---|
| Selection.Select | audio_data_utils.py:19-29 | `df[mask]` keeps a row exactly when it is in the table and the mask accepts it, and is never longer than the table |
| Selection.SelectPicks | audio_data_utils.py:19-29 | the result is the table read at strictly increasing positions, and a position is among them exactly when its row is accepted: order kept, nothing fabricated, no accepted row dropped |
| Selection.SelectCount | AudioUploadDashboard.py:145 | the length of a selection equals the number of table positions the mask accepts |
| Selection.SelectNarrowing | audio_data_utils.py:19-29 | applying a stricter mask to the result of a looser one gives the stricter mask's result on the whole table |
| Selection.SelectCongruent | AudioUploadDashboard.py:57-66 | two masks that agree on every row of the table select the same rows |
| Metadata.MinVolume | AudioUploadDashboard.py:45 | the slider's lower end `df['volume_db'].min()` is at most every row's volume and is some row's volume |
| Metadata.MaxVolume | AudioUploadDashboard.py:45 | the slider's upper end `df['volume_db'].max()` is at least every row's volume and is some row's volume |
| AudioDataUtils.FilterAudioMetadata | audio_data_utils.py:7-30 | a row is in the result exactly when it is in the table and meets all nine criteria; the result is no longer than the table |
| AudioDataUtils.FilterKeepsOrder | audio_data_utils.py:19-29 | the result is the table read at the strictly increasing positions of exactly the matching rows |
| AudioDataUtils.FilterHearing | audio_data_utils.py:20 | every kept row has `hearing_aid` equal to `hearing_filter` |
| AudioDataUtils.FilterDurationBoundsInclusive | audio_data_utils.py:21 | a row lasting exactly `lo` or `hi` seconds, with its volume anywhere in the volume range and passing the other conditions, is kept |
| AudioDataUtils.FilterVolumeBoundsInclusive | audio_data_utils.py:22 | a row at exactly `lo` or `hi` dB, with its duration anywhere in the duration range and passing the other conditions, is kept |
| AudioDataUtils.FilterEmptyInclusionSet | audio_data_utils.py:23-28 | if any of the six inclusion lists is empty the result is empty |
| AudioDataUtils.FilterInvertedRange | audio_data_utils.py:21-22 | if either range has `lo > hi` the result is empty, not an error |
| AudioDataUtils.FilterIdempotent | audio_data_utils.py:19-29 | filtering the result again with the same criteria returns the same sequence |
| AudioDataUtils.FilterMonotone | audio_data_utils.py:19-29 | with wider ranges and larger inclusion lists, every previously kept row is still kept, and the narrow result is the narrow filter applied to the wide result |
| AudioDataUtils.FilterTwoRowExample | audio_data_utils.py:19-29 | of a 10 s, -20 dB wav row and a 50 s, -40 dB pcm row, duration [0, 30], volume [-48, -13] and file type {wav} keep only the first; file type {} keeps neither |
| Metadata.Unique | AudioUploadDashboard.py:35-42 | `df[col].unique()` has at most as many values as the table has rows |
| Metadata.UniqueHas | AudioUploadDashboard.py:35-42 | every row's value in a column is among that column's `unique()` values |
| AudioUploadDashboard.Admissible | AudioUploadDashboard.py:33-48 | what the widgets can return: every picked file type and WOLA type, and with the selectbox on "yes" every picked hardware type, microphone and receiver, occurs in some row of the table |
| AudioUploadDashboard.DefaultInput | AudioUploadDashboard.py:33-48 | the first-load values (selectbox index 1 = "no", duration (0, 60), volume from the column minimum to maximum, every option picked) are admissible and pick every file type and WOLA type of the table |
| AudioUploadDashboard.SidebarCriteria | AudioUploadDashboard.py:33-48 | the sliders and the file type and WOLA picks pass through; with the selectbox on "yes" the hardware criteria are the picks and stay within their columns' values for admissible widgets; otherwise they hold every column value; a channel choice is made exactly when the selectbox is not "yes" |
| AudioUploadDashboard.DashboardFilter | AudioUploadDashboard.py:57-66 | a row is shown exactly when it is in the table and passes the inline mask, which demands `hearing_aid == "yes"` and has no channel test |
| AudioUploadDashboard.TotalFiles | AudioUploadDashboard.py:145 | "Total Files" equals the number of table positions whose row passes the mask, and is at most the table size |
| AudioUploadDashboard.DashboardKeepsOrder | AudioUploadDashboard.py:57-66 | `filtered_df` is the table read at the strictly increasing positions of exactly the matching rows |
| AudioUploadDashboard.DashboardAlwaysHearingAid | AudioUploadDashboard.py:58 | every shown row has `hearing_aid == "yes"`, for every selectbox value, "no" included |
| AudioUploadDashboard.HardwareCriteriaWhenNotYes | AudioUploadDashboard.py:38-41 | with the selectbox not "yes", every table row's hardware type, microphone position and receiver are in the criteria |
| AudioUploadDashboard.DashboardSelectboxNotYes | AudioUploadDashboard.py:33-66 | with the selectbox not "yes", a row is shown exactly when it has a hearing aid and passes both sliders and the file type and WOLA type picks |
| AudioUploadDashboard.DashboardDurationWithinSlider | AudioUploadDashboard.py:44 | with admissible slider ends, every shown row lasts from 0 to 60 seconds, both ends included |
| AudioUploadDashboard.DashboardDefaultView | AudioUploadDashboard.py:33-66 | the first-load widget values are admissible, the default volume range excludes no row, and the rows shown are exactly those with a hearing aid lasting 0 to 60 s, although the selectbox reads "no" |
| AudioUploadDashboard.DashboardAsLibrary | AudioUploadDashboard.py:57-66 | the inline mask selects what `filter_audio_metadata` selects with hearing value "yes" and every channel of the table allowed |
| AudioUploadDashboard.DashboardIgnoresChannelChoice | AudioUploadDashboard.py:42 | the result is the same whatever `cchannel_filter` holds |
| AudioUploadDashboard.FilterIgnoresChannel | AudioUploadDashboard.py:57-66 | on tables that differ only in channels, criteria that differ only in the channel choice show the same rows, apart from channels, in the same order |
| AudioUploadDashboard.ColumnsIgnoreChannel | AudioUploadDashboard.py:35-41 | tables that differ only in channels offer the same hardware, microphone and receiver values |
| AudioUploadDashboard.DashboardIgnoresChannel | AudioUploadDashboard.py:34-66 | for the same widget values, tables that differ only in channels show the same rows, apart from channels, in the same order |

## Left out

- `load_audio_metadata` and the CSV load (audio_data_utils.py:3-5, AudioUploadDashboard.py:26): file I/O handed to `pd.read_csv`. The table is a parameter. The load/save round trip and the schema and parse errors of loading are not modelled for the same reason.
- The random demo table (AudioUploadDashboard.py:11-25): built from random generators and replaced at line 26.
- Widgets, layout, images, charts and CSS (AudioUploadDashboard.py:28-32, 70-71, 92-113): UI calls. The filename search box at line 32 is read by nothing. Widget values enter the model as `SidebarInput`.
- The audiogram slider expander (AudioUploadDashboard.py:73-89): UI with random defaults and no effect on the filter.
- The simulated remote copy and progress bar (AudioUploadDashboard.py:114-143): a demo built on `time.sleep`.
- The mean and rounded metrics (AudioUploadDashboard.py:146-147) and the file listing (lines 151-152): floating-point aggregation and output; the mean of an empty selection is NaN.
- Pandas NaN comparisons and column dtype coercion. Volumes are exact reals, so no NaN row exists.
- AudioDataUtils.FilterAudioMetadata: duration bounds are integers. Durations are whole seconds, so real bounds `[lo, hi]` select the same rows as `[ceil lo, floor hi]`; fractional bounds are not modelled separately.
- AudioUploadDashboard.Admissible: the volume slider of an empty table, whose minimum and maximum would be NaN, is not constrained. The filter of an empty table is empty anyway.
- The index labels of the rows `df[mask]` keeps (audio_data_utils.py:19, AudioUploadDashboard.py:57): `Table` is a plain sequence of rows. Nothing in the modelled code reads the labels; the file listing at AudioUploadDashboard.py:151 discards the index.
- The order of `unique()` values and of `isin` lists: only membership matters to the filter, so they are sets.
- The `upload_date`, `filename` and `audiogram_gains` columns are carried in `Row` but read by no filter. The 24-gain length and filename uniqueness are not enforced by the source, so the model does not enforce them.
