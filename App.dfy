/** The application state: the loaded video, the draft reference, the notes taken on it, the
    last reported playback position, the error banner and the player's details. Each handler
    of the page is a method that updates these fields in place. */
module AppState {
  import opened Wrappers
  import opened Seqs
  import Clock
  import opened Notes
  import opened Export
  import opened VideoRef

  const InvalidReferenceMessage: string := "Please enter a valid YouTube URL or video ID"
  const LoadFailedMessage: string := "Failed to load video. Please check the URL and try again."
  const DescriptionPlaceholder: string := "Loading description..."

  /** A call made on the embedded player. */
  datatype PlayerCommand = SeekTo(time: nat) | PlayVideo

  /** The thumbnail address derived from a video identifier. */
  function ThumbnailUrl(videoId: string): string
  {
    "https://img.youtube.com/vi/" + videoId + "/maxresdefault.jpg"
  }

  class App {
    var videoId: string
    var inputVideoId: string
    var notes: seq<Note>
    var currentTime: nat
    var error: Option<string>
    var details: Option<VideoDetails>
    /** Whether the player has reported ready (the player reference is set). */
    var hasPlayer: bool

    /** The loaded identifier is empty or has 11 characters, and every note's clock text is
        the rendering of its own timestamp. */
    predicate Valid()
      reads this
    {
      (videoId == "" || |videoId| == IdLength) &&
      forall i :: 0 <= i < |notes| ==> Stamped(notes[i])
    }

    constructor ()
      ensures Valid()
      ensures videoId == "" && inputVideoId == "" && notes == [] && currentTime == 0
      ensures error == None && details == None && !hasPlayer
    {
      videoId := "";
      inputVideoId := "";
      notes := [];
      currentTime := 0;
      error := None;
      details := None;
      hasPlayer := false;
    }

    /** Typing into the reference field. */
    method EditInput(text: string)
      modifies this
      requires Valid()
      ensures Valid()
      ensures inputVideoId == text
      ensures videoId == old(videoId) && notes == old(notes) && currentTime == old(currentTime)
      ensures error == old(error) && details == old(details) && hasPlayer == old(hasPlayer)
    {
      inputVideoId := text;
    }

    /** Submitting the reference: an accepted reference loads a fresh video with no notes and
        no details and clears the field; a rejected one shows the error and changes nothing else. */
    method SubmitVideo()
      modifies this
      requires Valid()
      ensures Valid()
      ensures ExtractVideoId(old(inputVideoId)).Some? ==>
        videoId == ExtractVideoId(old(inputVideoId)).value && |videoId| == IdLength &&
        inputVideoId == "" && notes == [] && details == None && error == None
      ensures ExtractVideoId(old(inputVideoId)).None? ==>
        error == Some(InvalidReferenceMessage) && videoId == old(videoId) &&
        inputVideoId == old(inputVideoId) && notes == old(notes) && details == old(details)
      ensures currentTime == old(currentTime) && hasPlayer == old(hasPlayer)
    {
      error := None;
      var id := ExtractVideoId(inputVideoId);
      if id.Some? {
        videoId := id.value;
        inputVideoId := "";
        notes := [];
        details := None;
      } else {
        error := Some(InvalidReferenceMessage);
      }
    }

    /** Adding a note: it is stamped with the last reported position and appended last. */
    method AddNote(content: string, category: string, id: string)
      modifies this
      requires Valid()
      ensures Valid()
      ensures notes == old(notes) + [NewNote(id, old(currentTime), content, category)]
      ensures notes[|notes| - 1].formattedTime == Clock.FormatClock(currentTime)
      ensures videoId == old(videoId) && inputVideoId == old(inputVideoId) && currentTime == old(currentTime)
      ensures error == old(error) && details == old(details) && hasPlayer == old(hasPlayer)
    {
      notes := notes + [NewNote(id, currentTime, content, category)];
    }

    /** Deleting by identifier: every note carrying `id` goes, the others keep their order. */
    method DeleteNote(id: string)
      modifies this
      requires Valid()
      ensures Valid()
      ensures notes == Notes.DeleteNote(old(notes), id)
      ensures IdAbsent(notes, id) && IsSubsequence(notes, old(notes))
      ensures videoId == old(videoId) && inputVideoId == old(inputVideoId) && currentTime == old(currentTime)
      ensures error == old(error) && details == old(details) && hasPlayer == old(hasPlayer)
    {
      DeleteKeepsStamped(notes, id);
      notes := Notes.DeleteNote(notes, id);
    }

    /** The player paused: the position it reports becomes the stamp of the next note. */
    method Pause(time: nat)
      modifies this
      requires Valid()
      ensures Valid()
      ensures currentTime == time
      ensures videoId == old(videoId) && inputVideoId == old(inputVideoId) && notes == old(notes)
      ensures error == old(error) && details == old(details) && hasPlayer == old(hasPlayer)
    {
      currentTime := time;
    }

    /** The player failed to load: the error is shown and the video is unloaded, the notes kept. */
    method VideoError()
      modifies this
      requires Valid()
      ensures Valid()
      ensures error == Some(LoadFailedMessage) && videoId == ""
      ensures inputVideoId == old(inputVideoId) && notes == old(notes) && currentTime == old(currentTime)
      ensures details == old(details) && hasPlayer == old(hasPlayer)
    {
      error := Some(LoadFailedMessage);
      videoId := "";
    }

    /** The player is ready: it is remembered, and the details are taken from it. */
    method PlayerReady(title: string)
      modifies this
      requires Valid()
      ensures Valid()
      ensures hasPlayer
      ensures details == Some(VideoDetails(title, DescriptionPlaceholder, ThumbnailUrl(videoId)))
      ensures videoId == old(videoId) && inputVideoId == old(inputVideoId) && notes == old(notes)
      ensures currentTime == old(currentTime) && error == old(error)
    {
      hasPlayer := true;
      details := Some(VideoDetails(title, DescriptionPlaceholder, ThumbnailUrl(videoId)));
    }

    /** Clicking a note's time: seek there and play, when a player is attached; nothing otherwise. */
    method TimeClick(time: nat) returns (commands: seq<PlayerCommand>)
      ensures hasPlayer ==> commands == [SeekTo(time), PlayVideo]
      ensures !hasPlayer ==> commands == []
    {
      commands := [];
      if hasPlayer {
        commands := commands + [SeekTo(time)];
        commands := commands + [PlayVideo];
      }
    }

    /** Exporting: the drawing events of the document for the current notes and details. Each note's
        `[HH:MM:SS]` stamp reads back as the position the note was taken at, within the day. */
    method Export(wrap: string -> nat) returns (events: seq<Event>)
      requires Valid() && PlainCategories(notes)
      ensures events == ExportLayout(notes, videoId, details, wrap)
      ensures WithinPage(events)
      ensures Texts(events) == HeaderTexts(videoId, details) + GroupsTexts(Grouped(notes))
      ensures forall i :: 0 <= i < |notes| ==>
                Clock.ParseClock(notes[i].formattedTime) == Some(Clock.DaySecond(notes[i].timestamp))
    {
      forall i | 0 <= i < |notes|
        ensures Clock.ParseClock(notes[i].formattedTime) == Some(Clock.DaySecond(notes[i].timestamp))
      {
        Clock.FormatClockRoundTrip(notes[i].timestamp);
      }
      events := ExportPdf(notes, videoId, details, wrap);
      ExportWithinPage(notes, videoId, details, wrap);
      ExportTexts(notes, videoId, details, wrap);
    }
  }
}
