/** The resume-analysis page (client/pages/resume.js): file selection by
    drag-and-drop or picker, the guarded upload, and the score display.
    The multipart upload is an input (`Result`). */
module ResumePage {
  import opened Wrappers

  datatype File = File(name: string, size: nat)

  datatype Analysis = Analysis(
    atsScore: int, suggestions: seq<string>, missingKeywords: seq<string>, strengths: seq<string>)

  /** The two parts of the multipart upload. */
  datatype UploadRequest = UploadRequest(resume: File, jobDescription: string)

  class ResumeForm {
    var file: Option<File>
    var jobDescription: string
    var analysis: Option<Analysis>
    var loading: bool
    var dragActive: bool

    constructor ()
      ensures file.None? && jobDescription == "" && analysis.None? && !loading && !dragActive
    {
      file, jobDescription, analysis, loading, dragActive := None, "", None, false, false;
    }

    /** `handleDrag`: entering or hovering highlights the drop zone, leaving
        clears it, any other event leaves it as it is. */
    method HandleDrag(eventType: string)
      modifies this`dragActive
      ensures eventType == "dragenter" || eventType == "dragover" ==> dragActive
      ensures eventType == "dragleave" ==> !dragActive
      ensures eventType !in {"dragenter", "dragover", "dragleave"} ==> dragActive == old(dragActive)
    {
      if eventType == "dragenter" || eventType == "dragover" {
        dragActive := true;
      } else if eventType == "dragleave" {
        dragActive := false;
      }
    }

    /** `handleDrop`: always clears the highlight; takes the first dropped
        file, keeping the old one when nothing was dropped. */
    method HandleDrop(files: seq<File>)
      modifies this`dragActive, this`file
      ensures !dragActive
      ensures file == if files != [] then Some(files[0]) else old(file)
    {
      dragActive := false;
      if files != [] {
        file := Some(files[0]);
      }
    }

    /** `handleFileChange`: takes the first picked file, if any. */
    method HandleFileChange(files: seq<File>)
      modifies this`file
      ensures file == if files != [] then Some(files[0]) else old(file)
    {
      if files != [] {
        file := Some(files[0]);
      }
    }

    /** The remove button next to the chosen file. */
    method RemoveFile()
      modifies this`file
      ensures file.None?
    {
      file := None;
    }

    method SetJobDescription(text: string)
      modifies this`jobDescription
      ensures jobDescription == text
    {
      jobDescription := text;
    }

    /** The submit button is disabled with no file or while uploading. */
    function SubmitDisabled(): (disabled: bool)
      reads this
      ensures disabled <==> file.None? || loading
    {
      file.None? || loading
    }

    /** `handleSubmit`: with no file nothing is sent and nothing changes;
        otherwise the file and job description are uploaded, the analysis
        is stored only on success, and `loading` ends false either way. */
    method HandleSubmit(reply: Result<Analysis>) returns (request: Option<UploadRequest>)
      modifies this`loading, this`analysis
      ensures old(file).None? ==> request.None? && loading == old(loading) && analysis == old(analysis)
      ensures old(file).Some? ==>
        && request == Some(UploadRequest(old(file).value, jobDescription))
        && !loading
        && analysis == if reply.Ok? then Some(reply.value) else old(analysis)
    {
      if file.None? {
        return None;
      }
      loading := true;
      request := Some(UploadRequest(file.value, jobDescription));
      if reply.Ok? {
        analysis := Some(reply.value);
      }
      loading := false;
    }

    /** "Analyze another resume": drops the analysis, keeps the inputs. */
    method AnalyzeAnother()
      modifies this`analysis
      ensures analysis.None?
    {
      analysis := None;
    }
  }

  // ---------------------------------------------------------------------
  // The score display.

  /** `getScoreColor`. */
  function ScoreColor(score: int): string {
    if score >= 80 then "text-green-600"
    else if score >= 60 then "text-yellow-600"
    else "text-red-600"
  }

  /** The status line under the score. */
  function ScoreStatus(score: int): string {
    if score >= 80 then "Excellent - Ready to apply!"
    else if score >= 60 then "Good - Minor improvements needed"
    else "Needs Improvement - Requires optimization"
  }

  /** `getScoreIcon`: the check icon, or the alert icon. */
  function ShowsCheckIcon(score: int): bool {
    score >= 80
  }

  /** Rank of a colour band, lowest first. */
  function BandRank(color: string): int {
    if color == "text-green-600" then 2 else if color == "text-yellow-600" then 1 else 0
  }

  /** The three colour bands partition the scores at 60 and 80. */
  lemma ScoreColorBands(score: int)
    ensures ScoreColor(score) == "text-green-600" <==> score >= 80
    ensures ScoreColor(score) == "text-yellow-600" <==> 60 <= score < 80
    ensures ScoreColor(score) == "text-red-600" <==> score < 60
  {
  }

  /** A higher score never gets a lower band. */
  lemma ScoreColorMonotonic(score: int, score': int)
    requires score <= score'
    ensures BandRank(ScoreColor(score)) <= BandRank(ScoreColor(score'))
  {
  }

  /** The status text and the icon follow the same thresholds as the colour. */
  lemma StatusFollowsColor(score: int)
    ensures ScoreStatus(score) == "Excellent - Ready to apply!" <==> ScoreColor(score) == "text-green-600"
    ensures ScoreStatus(score) == "Good - Minor improvements needed" <==> ScoreColor(score) == "text-yellow-600"
    ensures ShowsCheckIcon(score) <==> ScoreColor(score) == "text-green-600"
  {
  }
}
