/** The ask-a-question wizard: email, then a one-time password, then a video
    upload accepted only between 2 PM and 7 PM, within 50 MiB and two
    minutes; a successful upload starts the wizard over
    (src/components/AskQuestion.jsx). */
module AskQuestion {
  import opened Entities

  const MaxVideoBytes: int := 50 * 1024 * 1024
  const MaxDurationSeconds: real := 120.0
  /** The one-time password the mocked email step accepts. */
  const DemoOtp: string := "123456"

  const ErrInvalidEmail: string := "Please enter a valid email address."
  const ErrInvalidOtp: string := "Invalid OTP. Please try again."
  const ErrTooLarge: string := "File size exceeds 50MB. Please choose a smaller video."
  const ErrTooLong: string := "Video duration exceeds 2 minutes. Please upload a shorter video."
  const ErrNoFile: string := "Please select a video file to upload."
  const ErrWindowClosed: string := "Sorry, video uploads are only allowed between 2 PM and 7 PM."

  /** `isUploadAllowed` for the local hour of day `hour` (0 to 23). */
  predicate IsUploadAllowed(hour: int) {
    hour >= 14 && hour < 19
  }

  /** The window opens at 14:00 and closes at 19:00: the five hours 14 to
      18 of a day are exactly the ones allowed. */
  lemma UploadWindowHours()
    ensures (set h | 0 <= h < 24 && IsUploadAllowed(h)) == {14, 15, 16, 17, 18}
    ensures !IsUploadAllowed(13) && IsUploadAllowed(14) && IsUploadAllowed(18) && !IsUploadAllowed(19)
  {
    var s := set h | 0 <= h < 24 && IsUploadAllowed(h);
    forall h | h in s ensures h in {14, 15, 16, 17, 18} {
    }
    assert 14 in s && 15 in s && 16 in s && 17 in s && 18 in s;
  }

  /** A video file as the file input reports it. */
  datatype VideoFile = VideoFile(name: string, size: nat)

  /** The step changes the wizard allows: stay, 1 to 2 (email sent), 2 to 3
      (password accepted), 2 to 1 (back) and 3 to 1 (uploaded). */
  predicate StepMove(from: int, to: int) {
    from == to || (from == 1 && to == 2) || (from == 2 && to == 3) ||
    (from == 2 && to == 1) || (from == 3 && to == 1)
  }

  /** No allowed move leaves the email step for the upload step, and the
      upload step is entered only from the password step. This follows from
      `StepMove` alone; what makes it a guarantee about the wizard is that
      every `Wizard` handler ensures `StepMove(old(step), step)`. */
  lemma NeverSkipsPassword(from: int, to: int)
    requires StepMove(from, to) && from != to && to == 3
    ensures from == 2
  {
  }

  /** The result of pressing Submit Question. */
  datatype UploadOutcome = Submitted | NoFile | WindowClosed

  /** The wizard's state. */
  class Wizard {
    var step: int
    var email: string
    var otp: string
    var videoFile: Option<VideoFile>
    var videoPreview: Option<string>
    var error: string

    /** The step is 1, 2 or 3; a staged file is within the size limit and
        has a preview; nothing is staged outside the upload step. */
    predicate Valid()
      reads this
    {
      1 <= step <= 3 &&
      (videoFile.Some? ==> videoFile.value.size <= MaxVideoBytes && videoPreview.Some?) &&
      (step != 3 ==> videoFile.None? && videoPreview.None?)
    }

    /** Submit Question is enabled: a file is staged, no error is shown and
        the window is open. */
    predicate UploadEnabled(hour: int)
      reads this
    {
      videoFile.Some? && error == [] && IsUploadAllowed(hour)
    }

    constructor ()
      ensures Valid() && step == 1
      ensures email == [] && otp == [] && videoFile.None? && videoPreview.None? && error == []
    {
      step := 1;
      email := [];
      otp := [];
      videoFile := None;
      videoPreview := None;
      error := [];
    }

    /** Typing in the email field of step 1. */
    method SetEmail(text: string)
      requires Valid() && step == 1
      modifies this`email
      ensures Valid() && email == text
    {
      email := text;
    }

    /** Typing in the password field of step 2. */
    method SetOtp(text: string)
      requires Valid() && step == 2
      modifies this`otp
      ensures Valid() && otp == text
    {
      otp := text;
    }

    /** Send OTP: an empty email is refused on step 1; any other moves on to
        step 2 with the error cleared. */
    method HandleEmailSubmit()
      requires Valid() && step == 1
      modifies this`step, this`error
      ensures Valid() && StepMove(old(step), step)
      ensures email == [] ==> step == 1 && error == ErrInvalidEmail
      ensures email != [] ==> step == 2 && error == []
    {
      if email == [] {
        error := ErrInvalidEmail;
        return;
      }
      error := [];
      step := 2;
    }

    /** Verify & Proceed: exactly the demo password moves on to step 3;
        anything else stays on step 2 with the error set. */
    method HandleOtpSubmit()
      requires Valid() && step == 2
      modifies this`step, this`error
      ensures Valid() && StepMove(old(step), step)
      ensures otp == DemoOtp ==> step == 3 && error == []
      ensures otp != DemoOtp ==> step == 2 && error == ErrInvalidOtp
    {
      error := [];
      if otp == DemoOtp {
        step := 3;
      } else {
        error := ErrInvalidOtp;
      }
    }

    /** Back to email, from step 2; the email and the password are kept. */
    method BackToEmail()
      requires Valid() && step == 2
      modifies this`step
      ensures Valid() && StepMove(old(step), step) && step == 1
    {
      step := 1;
    }

    /** A file chosen in step 3 (`None` when the dialog was cancelled):
        larger than 50 MiB it is refused and anything staged is dropped;
        otherwise it is staged with its preview and the error cleared. */
    method HandleFileChange(file: Option<VideoFile>, previewUrl: string)
      requires Valid() && step == 3
      modifies this`videoFile, this`videoPreview, this`error
      ensures Valid() && step == old(step)
      ensures file.None? ==>
        videoFile == old(videoFile) && videoPreview == old(videoPreview) && error == old(error)
      ensures file.Some? && file.value.size > MaxVideoBytes ==>
        error == ErrTooLarge && videoFile.None? && videoPreview.None?
      ensures file.Some? && file.value.size <= MaxVideoBytes ==>
        error == [] && videoFile == file && videoPreview == Some(previewUrl)
    {
      if file.None? {
        return;
      }
      error := [];
      if file.value.size > MaxVideoBytes {
        error := ErrTooLarge;
        videoFile := None;
        videoPreview := None;
        return;
      }
      videoFile := file;
      videoPreview := Some(previewUrl);
    }

    /** The preview reporting the video's duration in seconds: over two
        minutes the video is dropped with an error; otherwise nothing
        changes. The preview element exists only while a preview is shown. */
    method HandleVideoMetadata(duration: real)
      requires Valid() && step == 3 && videoPreview.Some?
      modifies this`videoFile, this`videoPreview, this`error
      ensures Valid() && step == old(step)
      ensures duration > MaxDurationSeconds ==>
        error == ErrTooLong && videoFile.None? && videoPreview.None?
      ensures duration <= MaxDurationSeconds ==>
        videoFile == old(videoFile) && videoPreview == old(videoPreview) && error == old(error)
    {
      if duration > MaxDurationSeconds {
        error := ErrTooLong;
        videoFile := None;
        videoPreview := None;
      }
    }

    /** The X button on the preview: the staged video and the error go. */
    method ClearVideo()
      requires Valid() && step == 3 && videoPreview.Some?
      modifies this`videoFile, this`videoPreview, this`error
      ensures Valid() && videoFile.None? && videoPreview.None? && error == []
    {
      videoFile := None;
      videoPreview := None;
      error := [];
    }

    /** Submit Question at local hour `hour`: refused when no file is staged,
        then when the window is closed, each time with the error set and the
        rest kept; otherwise the question is submitted and the wizard starts
        over from step 1 with everything cleared. */
    method HandleUpload(hour: int) returns (outcome: UploadOutcome)
      requires Valid() && step == 3
      modifies this
      ensures Valid() && StepMove(old(step), step)
      ensures old(videoFile).None? ==> outcome == NoFile && error == ErrNoFile
      ensures old(videoFile).Some? && !IsUploadAllowed(hour) ==>
        outcome == WindowClosed && error == ErrWindowClosed
      ensures outcome != Submitted ==>
        step == old(step) && email == old(email) && otp == old(otp) &&
        videoFile == old(videoFile) && videoPreview == old(videoPreview)
      ensures outcome == Submitted <==> old(videoFile).Some? && IsUploadAllowed(hour)
      ensures outcome == Submitted ==>
        step == 1 && email == [] && otp == [] && videoFile.None? && videoPreview.None? && error == []
      ensures old(UploadEnabled(hour)) ==> outcome == Submitted
    {
      if videoFile.None? {
        error := ErrNoFile;
        return NoFile;
      }
      if !IsUploadAllowed(hour) {
        error := ErrWindowClosed;
        return WindowClosed;
      }
      error := [];
      videoFile := None;
      videoPreview := None;
      step := 1;
      email := [];
      otp := [];
      outcome := Submitted;
    }
  }
}
