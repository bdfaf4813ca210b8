# Mastodon scheduler: a Dafny model

This project models the core of a small personal Mastodon scheduler. The
scheduler is a Flask application (main.py). It keeps scheduled posts in a
`scheduled_post` table and registers one APScheduler "date" job per post.
Each job runs `post_to_mastodon` at the post's time. After a restart,
`load_scheduled_posts` re-registers the posts that are still in the future.
It runs only when the application is started as `python main.py`
(main.py:157-158); `flask run` does not call it.
An e-paper display shows the next scheduled post (assets/next_up.py), and
two browser scripts (static/publisher.js, static/script.js) check the
compose form before it is submitted.

The model is split into these modules:

- `FileTypes`: `allowed_file`, the image-extension allow-list.
- `MastodonCalls`: the Mastodon client, modelled as a trace of
  `media_post` / `status_post` requests. It also holds `post_to_mastodon`,
  the function that a job runs.
- `SchedulerApp`: the class `App`. Its fields are the table (`posts`, a
  sequence of rows in row order), the job store (`jobs`, a map from job id
  to a `Job` holding the run date and the copied arguments) and the files
  under the static folder (`files`). Its methods are the schedule and
  immediate branches of `index`, the next-up selection,
  `load_scheduled_posts`, and a job firing. The module also holds the
  reload as a function, with its lemmas.
- `NextUpDisplay`: the logic of `display_post` that does not draw: the
  content default, newline flattening, line truncation, the Img/Alt/CW
  metadata line, the schedule-label fallback chain, and vertical centring.
  The drawing is given as the list of `draw.text` calls it makes.
- `ComposeForm`: `validateForm`, the character counters, the alt-text
  toggle and the submit guard. static/publisher.js and static/script.js
  contain the same four functions, so this module models them once; the
  submit guard is only in publisher.js.
- `Text` and `Wrappers`: shared helpers (decimal strings, ASCII
  lower-casing, last index, `Option`).

Times are integer timestamps; the browser scripts use milliseconds. Paths
are written relative to the application's static folder, so
`"uploads/cat.png"` stands for `<root>/static/uploads/cat.png`. Both main.py
paths name that same file: the immediate branch's `file_path` and
`post_to_mastodon`'s `full_image_path`.

The following come in as parameters:

- what `secure_filename` makes of a file name;
- the parsed schedule time;
- the server's answers to the requests;
- textwrap's lines, the font heights and the strptime/strftime reformatting,
  on the display;
- the result of `new Date(...)`, in the browser.

Invariants kept by `App` (`App.Valid`):

- Row ids are the row numbers 1, 2, 3, …, because rows are never deleted.
- Every job is registered under one of the two ids of some row, `"<id>"` or
  `"post_<id>"`. It runs a copy of that row's content and image path at that
  row's time.

main.py has none of the following:

- an `is_posted` flag;
- edit and cancel;
- catch-up firing of past-dated posts at start-up;
- a content warning and alt text on the record;
- jobs that carry the record id and re-read the record when they fire.

The model follows the code. A job carries a snapshot of the content and the
path, not the row id (`SchedulerApp.App.ScheduleBranch`). Past-dated posts
get no job on reload (`SchedulerApp.ReloadAddsOnlyFuture`).

## Model

| member | source | states |
|---|---|---|
| FileTypes.Extension | main.py:60 | `rsplit('.', 1)[1]`: None exactly when the name has no dot; otherwise the dot-free tail that follows the last dot |
| FileTypes.AllowedFile | main.py:57-60 | `allowed_file`: an accepted name ends in a dot followed by three or four characters (the lengths of png, jpg, jpeg, gif); AllowedFileIff gives the full characterisation |
| FileTypes.AllowedFileIff | main.py:57-60 | a name is allowed iff it has a dot at some position i with no dot after it, and the lower-cased text after i is png, jpg, jpeg or gif |
| FileTypes.AllowedFileByLastExtension | main.py:59-60 | for base + "." + ext with a dot-free ext, the verdict depends on ext alone: it is allowed iff lower(ext) is on the list |
| FileTypes.UpperCaseExtensionAccepted | main.py:60 | "A.PNG" is accepted (the extension is lower-cased) |
| FileTypes.DoubleExtensionRejected | main.py:60 | "x.png.exe" is rejected (only the last extension counts) |
| FileTypes.NameWithoutDotRejected | main.py:60 | a name without a dot is never allowed |
| MastodonCalls.Client.constructor | main.py:50-55 | a new client has made no requests |
| MastodonCalls.Client.MediaPost | main.py:71-73 | `media_post` appends exactly one upload request for the path to the trace, and answers the server's media id (None when it raises) |
| MastodonCalls.Client.StatusPost | main.py:76 | `status_post` appends exactly one status request with the text and media ids, and reports whether it succeeded |
| MastodonCalls.MediaIds | main.py:76 | `[media_id] if media_id else None`: a one-element list exactly when the id is present and non-empty |
| MastodonCalls.PostCalls | main.py:62-79 | media_post is called, and called first, iff the image path is truthy and the file exists; a missing file or no image gives exactly one text-only status; status_post is the last call unless the upload raised; every status carries the content; with an uploaded id the status carries `[id]` |
| MastodonCalls.Uploads | main.py:67-71 | media_post is called exactly when the image path is truthy and the file exists |
| MastodonCalls.LogsError | main.py:74-79 | when no error is logged, the status post succeeded and any truthy image path was uploaded with an id |
| MastodonCalls.PostToMastodon | main.py:62-79 | the requests made are exactly `PostCalls`; an error is logged iff the file is missing or a request raises; no exception leaves the method |
| SchedulerApp.JobFor | main.py:110-116 | the date job registered for a row: the row's time as run date, and copies of its content and image path as arguments |
| SchedulerApp.ScheduleKey | main.py:115 | `str(new_post.id)`: a non-empty string of decimal digits that parses back to the row id |
| SchedulerApp.ReloadKey | main.py:149 | `f"post_{post.id}"`: "post_" followed by digits that parse back to the row id |
| SchedulerApp.KeysDiffer | main.py:110-151 | the schedule branch's id `str(id)` never equals the reload id `"post_<id>"`, whatever the two row ids |
| SchedulerApp.ScheduleKeyInjective | main.py:115 | distinct row ids give distinct `str(id)` job ids |
| SchedulerApp.ReloadKeyInjective | main.py:149 | distinct row ids give distinct `"post_<id>"` job ids |
| SchedulerApp.StoredImagePath | main.py:91-98 | the stored image_path is `uploads/<secure name>` iff a file with a non-empty name that passes allowed_file was sent, and None otherwise |
| SchedulerApp.SavedFiles | main.py:92-96 | a file is saved exactly when an image path is stored |
| SchedulerApp.FreshScheduleKey | main.py:106-116 | under the store invariants, a new row's id is not yet a job id, so add_job does not raise ConflictingIdError |
| SchedulerApp.InsertByTime | main.py:132 | insertion keeps exactly the rows plus the new one (multiset) |
| SchedulerApp.InsertByTimeSorted | main.py:132 | inserting into a time-sorted list keeps it sorted |
| SchedulerApp.SortByTime | main.py:132 | `order_by(schedule_time)` returns a permutation of the rows in ascending time |
| SchedulerApp.FirstFuturePost | main.py:136-140 | the loop returns None iff no row is later than now; otherwise it returns the first row in list order that is strictly later than now, and every row before it is at or before now |
| SchedulerApp.FirstFutureIsEarliest | main.py:132-140 | in a time-sorted list, the first row strictly later than now is the earliest such row |
| SchedulerApp.Reload | main.py:145-151 | the job store after `load_scheduled_posts`: rows are visited in order, and a row later than now whose `"post_<id>"` key is absent gets its job; the Reload lemmas below state what this adds and keeps |
| SchedulerApp.ReloadKeepsJobs | main.py:149-151 | reloading never replaces or removes an existing job |
| SchedulerApp.ReloadAddsOnlyFuture | main.py:147-151 | every job that reloading adds is the `"post_<id>"` job of a row strictly later than now, and runs that row's content, path and time |
| SchedulerApp.ReloadCoversFuture | main.py:147-151 | after reloading, every row strictly later than now has a `"post_<id>"` job |
| SchedulerApp.ReloadNoop | main.py:150-151 | when every future row already has its `"post_<id>"` job, reloading changes nothing |
| SchedulerApp.ReloadIdempotent | main.py:145-151 | a second reload at the same time or later leaves the job store as the first reload left it |
| SchedulerApp.ReloadLeavesScheduleKeys | main.py:149-150 | reloading neither adds nor changes a job under a bare `"<id>"` id |
| SchedulerApp.ReloadDuplicatesScheduledPost | main.py:110-151 | a future row whose `"<id>"` job exists ends up with a second job, `"post_<id>"`, and both run that row's content at its time |
| SchedulerApp.ReloadFixedOneJobPerPost | main.py:149-151 | with the corrected id, a store holding only `"<id>"` jobs of the rows keeps that shape: no row gets a second job |
| SchedulerApp.ReloadFixedCoversFuture | main.py:147-151 | with the corrected id, every row strictly later than now ends up with its job |
| SchedulerApp.App.Restore | main.py:26-47 | a process starts from the persisted table, job store and files |
| SchedulerApp.App.AddJob | main.py:110-116 | add_job adds the job under its id, or raises ConflictingIdError and changes nothing when the id is taken |
| SchedulerApp.App.ScheduleBranch | main.py:89-117 | the schedule branch commits exactly one new row with the next id, and registers exactly one new job under `str(id)`; the job has the parsed time and a copy of the content and image path; the saved image file exists; the invariants hold |
| SchedulerApp.App.PostNowBranch | main.py:118-129 | the immediate branch adds no row and no job; it saves an allowed image, uploads it, then posts the status; a raising request is reported as raised |
| SchedulerApp.App.NextUpPost | main.py:131-140 | next-up is a stored row strictly later than now, with a time no later than that of any other such row; it is None iff every row is at or before now (so also for an empty table) |
| SchedulerApp.App.LoadScheduledPosts | main.py:145-151 | the job store becomes `Reload(posts, jobs, now)`; the rows are unchanged; the invariants hold |
| SchedulerApp.App.FireJob | main.py:110-114 | firing removes exactly that job and runs post_to_mastodon on the job's copied arguments, which are some stored row's content and path; it reports a logged error exactly as LogsError says |
| SchedulerApp.RestartPublishesTwice | main.py:145-159 | a post scheduled for 100, a restart at 50, then both jobs firing: the same status is posted twice |
| NextUpDisplay.Flatten | assets/next_up.py:36 | same length; every newline becomes a space and every other character is unchanged |
| NextUpDisplay.PostContent | assets/next_up.py:36 | a missing content becomes "No content"; the result has no newline; a string keeps its length and its non-newline characters (an empty string stays empty); a null content makes `.replace` raise (None) |
| NextUpDisplay.TruncateLines | assets/next_up.py:39-44 | at most 4 lines; with more than 4 wrapped lines, the first 3 are kept and the 4th gets '…' appended; otherwise the lines are unchanged |
| NextUpDisplay.MetadataLabel | assets/next_up.py:49-53 | "Img: a Alt: b CW: c" with fixed words; a is ✔ iff image_path is truthy, b is ✔ iff image_alt_text is truthy, c is ✓ iff cw_text is truthy; each is ✖ otherwise |
| NextUpDisplay.ScheduleLabel | assets/next_up.py:56-67 | "Scheduled for " followed by: the reformatted time when the value parses; the raw value when parsing fails; "No schedule time" when the value is empty, null or missing |
| NextUpDisplay.LinesHeight | assets/next_up.py:47 | the summed `textsize` heights of the content lines in the post font; LinesHeightStep gives the per-line step used by DrawLines |
| NextUpDisplay.TotalHeight | assets/next_up.py:71 | the block height: content lines, metadata and schedule caption plus 17 pixels of padding |
| NextUpDisplay.StartY | assets/next_up.py:73-74 | `(width - total) // 2` is floor division: 2·top ≤ width − total ≤ 2·top + 1; it is negative iff the block is taller than the screen |
| NextUpDisplay.Centred | assets/next_up.py:70-74 | the space below the block equals the space above it, or exceeds it by one pixel |
| NextUpDisplay.DrawLines | assets/next_up.py:77-80 | line j is drawn at x=5 and at the start y plus the summed heights of lines 0..j-1; the final y is the start plus the height of all lines |
| NextUpDisplay.Layout | assets/next_up.py:70-87 | line i is drawn at x=5, at the top plus the heights of the lines before it; the metadata is drawn 7 px below the content; the schedule label is drawn 15 px below the content plus the metadata height |
| NextUpDisplay.DisplayPost | assets/next_up.py:25-90 | null content gives no frame; otherwise between 2 and 6 draws: content lines in the post font, then the metadata line, then the schedule label |
| ComposeForm.ValidateForm | static/publisher.js:1-14 | an empty value passes; a value that parses passes iff its time is strictly more than now + 300000 ms; an Invalid Date passes, because its comparison is false |
| ComposeForm.FiveMinuteBoundary | static/script.js:6-11 | exactly now + 300000 ms is rejected; one millisecond later is accepted |
| ComposeForm.Utf16Length | static/publisher.js:34 | `.length` counts UTF-16 units: between one and two per character |
| ComposeForm.Utf16LengthOfBmp | static/script.js:43 | for text without astral characters, `.length` is the character count |
| ComposeForm.CounterText | static/publisher.js:46-48 | `${length}/${maxLength}`: the decimal digits of the length, then '/' right after them |
| ComposeForm.CounterTextReadsBack | static/script.js:45 | the counter text is the decimal length, then '/', then the maxlength attribute ("null" when it is absent); the digits before the first '/' parse back to the length |
| ComposeForm.UpdateFieldCharCount | static/publisher.js:44-50 | with the field and the counter present, the counter shows "<length>/<maxlength>"; with the field missing, nothing is written; the counter's other fields (value, maxlength, display, files) are unchanged |
| ComposeForm.UpdateCharCount | static/publisher.js:28-42 | the main counter shows "<len(content)+len(cw)>/<maxlength>" only when the content, CW and counter elements all exist, and is left alone otherwise; the alt-text counter is then updated as by UpdateFieldCharCount; only the two counters' textContent can change |
| ComposeForm.FileSelected | static/publisher.js:19 | `imageInput.files && imageInput.files[0]`: a file list is present and holds at least one file |
| ComposeForm.ToggleAltTextInput | static/publisher.js:16-26 | the container's display becomes 'flex' iff a file is selected and 'none' otherwise; a missing container throws; the container's other fields (value, maxlength, textContent, files) are unchanged |
| ComposeForm.OnSubmit | static/publisher.js:52-59 | submission is prevented exactly when validateForm is false |

## Findings

| source | as written | input that shows it | evidently intended | confidence | as-written member | corrected member |
|---|---|---|---|---|---|---|
| main.py:145-151 | `load_scheduled_posts` looks for and registers `"post_<id>"`. The schedule branch of `index` registered the same post as `"<id>"` (main.py:115), in the SQLAlchemy job store, which persists across restarts. | The application is started as `python main.py` (main.py:157-158), so `load_scheduled_posts` runs at start-up; its query runs outside an application context (main.py:147), which Flask-SQLAlchemy 2.x allows and 3.x refuses with a RuntimeError. A post with id 1 is scheduled for 12:00 and the process restarts at 11:00. Jobs "1" and "post_1" both exist, both run the same content at 12:00, and the status is published twice. | Check for and register under the id the schedule branch uses, so that every post has one job. | medium (not executed) | `SchedulerApp.ReloadDuplicatesScheduledPost`, `SchedulerApp.RestartPublishesTwice` (with `SchedulerApp.Reload`) | `SchedulerApp.ReloadFixed`, proved by `SchedulerApp.ReloadFixedOneJobPerPost` and `SchedulerApp.ReloadFixedCoversFuture` |

`SchedulerApp.App.LoadScheduledPosts` models the code as written. The
corrected reload is a separate function with its proofs.

## Left out

- Flask routing, `render_template`, `flash` messages, and the form and file
  lookups of the request: the form values come in as parameters.
- `datetime.strptime` on the form's time: times are integers. A malformed
  time, which raises before anything is stored, is not modelled.
- `secure_filename`: its result is a parameter. An empty result, for which
  `file.save` fails, is not modelled.
- `file.save` and `os.path.exists`: they are membership in the `files` set,
  and the contents are not modelled.
- `app.root_path` joining: paths are relative to the static folder.
- APScheduler's background thread, timing, and misfire handling of
  past-dated jobs. Firing is the explicit step `App.FireJob`.
- The `uploaded_file` route: it calls a `send_from_directory` that is never
  imported.
- The Mastodon server: its answers are parameters, and only the requests
  made are recorded. Log messages are not modelled.
- `SchedulerApp.SortByTime`: SQL does not fix the order of rows with equal
  `schedule_time`. The model keeps them in row order, which decides only
  which of several posts with the same time is next-up.
- `Text.Lower`: it lower-cases ASCII letters only. Python's `str.lower`
  also folds non-ASCII letters; none of the allowed extensions needs that.
- `NextUpDisplay.DisplayPost`: its contract does not state the line texts or
  positions itself. `TruncateLines` and `Layout`, which it calls, state them.
- The display's HTTP `fetch_next_post`, the `while True`/`sleep(60)` loop,
  `display_no_posts_message`, PIL drawing, rotation and the e-paper driver:
  all of this is I/O.
- `textwrap.fill`, `textsize` and the strptime/strftime reformatting: they
  are parameters. Fetched JSON values other than strings or null are not
  modelled.
- The browser's `alert` text, the event-listener wiring on page load, and
  `hideFlashMessages` (timers). A page without a `scheduled_at` input, where
  validateForm throws, is not modelled.
- `ComposeForm.UpdateCharCount`: it requires the two counters to be
  distinct elements. The page finds them by two different ids.
- app.py, encryption_utils.py, generate_codes.py, static/button.js,
  static/nav.js, static/notifications.js and static/js/script.js are not
  part of this model. They are a remote-scheduling variant, a crypto
  wrapper, a token generator and UI effects.
