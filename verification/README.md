# YouTube downloader and transcriber: stream selection and transcription retry

The repository is a single Streamlit script (`code.py`). Almost all of it is
UI wiring around pytube and `requests`. This project models the two pieces of
decision logic the script contains:

- **Stream selection** (module `StreamSelection`, `selection.dfy`). This covers
  `download_video_from_youtube` and `download_audio_from_youtube`. A video's
  streams are a `seq<Stream>` in pytube's enumeration order. Each `Stream` has
  an `itag`, a `progressive` flag, a file extension `ext`, an `onlyAudio` flag
  and a numeric resolution `res`, where 720 stands for "720p".
  - "Low" takes the progressive mp4 with the least resolution.
  - "High (HD)" tries 1080p, then 720p, then the progressive mp4 with the
    greatest resolution.
  - Audio takes the first audio-only stream.
  - When nothing matches, or the quality label is anything else, the model
    returns the `ValueError` with the source's message.
  - The download is an abstract step. It records which stream went to which
    file, and it records the path the function returns.
- **Transcription retry loop** (module `Transcription`, `transcription.dfy`).
  This covers `transcribe_audio`. The endpoint is the finite sequence of
  parsed replies it gives to successive POSTs. Each reply is a `Response`
  with three parts:
  - `hasError`: whether the reply has an `'error'` key;
  - `estimatedTime`: the value of its `'estimated_time'` key, if it has one;
  - an opaque payload.

  A run is recorded as a `Trace`. It holds the outcome, the number of POSTs
  made, and the waits performed in place of `time.sleep`. A call past the end
  of the reply sequence stands for `requests.post` or `response.json()`
  raising. `transcribe_audio` does not catch that exception, so it becomes
  the outcome `Raised`.

The loop is specified twice. `Poll` and `Transcribe` are the recursive loop
itself. `RunFrom` and `IsRun` are declarative descriptions of a run: a stretch
of loading replies, each answered by its wait, followed by one of three
endings. The budget is spent, or the next reply is returned unchanged, or the
next call raises. `TranscribeIsTheRun` shows that the two agree exactly.

Points of the code's behaviour that are easy to misread:

- A reply counts as a success when it has no `'error'` key (code.py:52),
  whatever else it holds. A reply that carries `'estimated_time'` without
  `'error'` is therefore returned at once (`EstimatedTimeAloneIsSuccess`). It
  does not cause a wait.
- Audio selection takes the first audio-only stream in enumeration order
  (code.py:11).
- After the tenth loading reply the loop still sleeps for that reply's
  estimated time, and only then returns the failure payload. A run that gives
  up therefore records ten waits for ten calls (`GivesUpAfterTenLoading`).
- Lines 42-43 of `code.py` are indented by three spaces, while the rest of the
  function body uses four. As written, Python would reject the file. The model
  takes the evident intent: all of lines 42-61 form the function body.

pytube is not part of this model. Its semantics are assumed as follows:

- `filter(...).first()` is the first matching stream in enumeration order.
- `order_by('resolution')` is a stable sort on the numeric part of the
  resolution label.
- `asc().first()` is therefore the first stream of least resolution.
- `desc()` reverses the sorted list. So `desc().first()` is the LAST stream,
  in enumeration order, among those of greatest resolution
  (`HighTieGoesToLastEnumerated`).

## Model

| member | source | states |
|---|---|---|
| StreamSelection.First | code.py:11 | `filter(c).first()` finds a stream exactly when one matches, and the one it finds matches while no earlier stream does |
| StreamSelection.Lowest | code.py:24 | `order_by('resolution').asc().first()` finds a stream exactly when one matches; it has the least resolution of all matches, and every earlier match has a strictly greater resolution |
| StreamSelection.Highest | code.py:32 | `order_by('resolution').desc().first()` finds a stream exactly when one matches; it has the greatest resolution of all matches, and every later match has a strictly smaller resolution |
| StreamSelection.PickVideo | code.py:22-32 | a stream is picked exactly when the quality is "Low" or "High (HD)" and some progressive mp4 exists, and the picked stream is a progressive mp4 |
| StreamSelection.SelectVideo | code.py:22-38 | the video download succeeds exactly when the quality is one of the two labels and a progressive mp4 exists; it yields a progressive mp4 of the list; otherwise it raises ValueError naming the quality |
| StreamSelection.SelectAudio | code.py:11-16 | audio selection succeeds exactly when some stream is audio-only; it yields the first audio-only stream; otherwise it raises "No audio stream found." |
| StreamSelection.DownloadAudio | code.py:9-16 | the stream fetched is exactly the one audio selection picks (the first audio-only stream), it goes to the output path, and that same path is returned; with no audio-only stream it raises "No audio stream found." |
| StreamSelection.DownloadVideo | code.py:19-38 | the stream fetched is exactly the one the quality policy selects, it goes to the output path, and the path the fetch reports is returned; failure raises the quality-naming ValueError under exactly the selection's conditions |
| StreamSelection.LowPicksLeastResolution | code.py:23-24 | For every stream list, "Low" succeeds exactly when a progressive mp4 exists and then yields the first-enumerated progressive mp4 of least resolution, and otherwise raises the ValueError naming "Low". |
| StreamSelection.HighPrefers1080 | code.py:25-26 | "High (HD)" yields the first 1080p progressive mp4 whenever one exists |
| StreamSelection.HighFallsBackTo720 | code.py:27-29 | without a 1080p progressive mp4, "High (HD)" yields the first 720p one when it exists |
| StreamSelection.HighFallsBackToGreatest | code.py:30-38 | without 1080p or 720p, "High (HD)" yields a progressive mp4 of greatest resolution, the last such enumerated; it fails exactly when there is no progressive mp4 at all |
| StreamSelection.HighTieGoesToLastEnumerated | code.py:32 | of two 480p progressive mp4 streams, the high-quality fallback takes the one enumerated second |
| Transcription.Classify | code.py:52-59 | a reply is a success exactly when it has no `'error'` key; it is a loading report exactly when it has both `'error'` and `'estimated_time'`, and the wait is that estimated time; anything else is terminal |
| Transcription.Poll | code.py:48-61 | the loop from any attempt number is a run as `RunFrom` describes it: loading replies answered by their waits, then budget exhaustion, a returned reply, or a raising call |
| Transcription.Transcribe | code.py:45-61 | `transcribe_audio` makes between 1 and 10 calls; it waits only in answer to a reply with `'error'` and `'estimated_time'`, and for exactly that time; it makes a call after every wait unless it gives up with the failure payload after 10 calls |
| Transcription.LoadingWaits | code.py:54-56 | the waits a stretch of loading replies asks for: one per reply, each equal to that reply's estimated time |
| Transcription.RunWaitsForStretch | code.py:48-56 | a run waits once for each reply in the leading stretch of loading replies, up to the attempt budget, and no more |
| Transcription.RunDetermined | code.py:48-61 | the replies determine the run: two runs over the same replies are equal |
| Transcription.TranscribeIsTheRun | code.py:48-61 | a trace is a run over the replies if and only if it is what `transcribe_audio` produces |
| Transcription.StopsAtFirstNonLoading | code.py:48-59 | when reply `i` is the first that is not a loading report, it is returned unchanged after exactly `i + 1` calls, with one wait per earlier reply |
| Transcription.SuccessReturnedAtOnce | code.py:52-53 | the first reply without `'error'` (after only loading replies) is returned unchanged, and no call follows it |
| Transcription.TerminalErrorNotRetried | code.py:57-59 | a reply with `'error'` but no `'estimated_time'` is returned unchanged with no retry; the call count equals its position |
| Transcription.GivesUpAfterTenLoading | code.py:48-61 | ten loading replies in a row yield `{"error": "Failed to load model after multiple attempts"}` after exactly ten calls and ten waits |
| Transcription.LaterRepliesIgnored | code.py:48-59 | once the loop has returned a reply, the replies the endpoint would have sent afterwards change nothing |
| Transcription.EstimatedTimeAloneIsSuccess | code.py:52-54 | a reply with `'estimated_time'` but no `'error'` key is returned after one call, with no wait |

## Left out

- The Streamlit UI is left out because it is presentation only. This covers
  page config, sidebar, name gate, URL input, quality select box, buttons,
  download buttons, the CSS block and every `st.write` message (code.py:63-197).
  The progress messages inside the two download functions and inside the loop
  (code.py:28, 31, 55, 58) are left out for the same reason.
- Real pytube enumeration, `YouTube(url)` construction and the file write of
  `stream.download` are left out. They are a foreign library plus network and
  filesystem I/O. The stream list is a parameter. The download is recorded as
  a `Download` value. For the video function, the path the download reports
  is the parameter `fetch`.
- `requests.post`, the endpoint URL, the bearer token, `response.json()`
  parsing and the reading of the audio file (code.py:42-50) are left out.
  They are network and file I/O and a secret. The replies are a parameter,
  and the bytes sent on each call are not represented.
- Exceptions from pytube or from reading the audio file are left out. Only a
  missing reply from the endpoint is modelled, as `Raised`.
- `time.sleep` is left out. Waits are recorded as values.
- Floating point is left out. `estimated_time` is a float in the service's
  replies, but here it is a natural number of seconds.
- Replies whose `'estimated_time'` is `null`, negative or not a number are
  not represented: `estimatedTime` is an optional natural number. On such a
  reply `time.sleep` (code.py:56) would raise a TypeError or ValueError that
  escapes `transcribe_audio`; that exception path is not modelled.
- The unused moviepy import (code.py:4) is left out.
- The UI's check for a `'text'` key in the result (code.py:160) is left out,
  because it belongs to the presentation layer.
