/** The cover-letter page (client/pages/cover-letter.js): the form, and the
    letter produced from it after a simulated two-second delay.  The form
    data is the map the handlers spread into; the delay is a separate
    `DelayElapsed` step, and the form captured when the timeout was set is
    kept in `pending` until it fires. */
module CoverLetterPage {

  /** The three inputs of the form, each starting empty. */
  const FormFields: set<string> := {"jobTitle", "company", "jobDescription"}
  const EmptyForm: map<string, string> := map["jobTitle" := "", "company" := "", "jobDescription" := ""]

  const Greeting := "Dear Hiring Manager,"
  const Intro := "\n\nI am writing to express my strong interest in the "
  const AfterTitle := " position at "
  const AfterCompany := ". With my background in software development and passion for technology, I am excited about the opportunity to contribute to your team.\n\nMy experience includes working with modern technologies and frameworks that align well with your requirements. I am particularly drawn to "
  const AfterSecondCompany := "'s mission and would love to bring my skills to help achieve your goals.\n\nI would welcome the opportunity to discuss how my background and enthusiasm can contribute to your team's success.\n\n"
  const Closing := "Best regards,\n"

  /** The letter for a job title, a company and the signing user's name. */
  function Letter(jobTitle: string, company: string, userName: string): string {
    Greeting + Intro + jobTitle + AfterTitle + company + AfterCompany + company + AfterSecondCompany
    + Closing + userName
  }

  /** The template's shape for any fixed pieces: where each piece sits. */
  lemma TemplateShape(g: string, i: string, at: string, ac: string, asc: string, cl: string,
                      title: string, company: string, name: string)
    ensures var l := g + i + title + at + company + ac + company + asc + cl + name;
      var t := |g| + |i|;
      var c1 := t + |title| + |at|;
      var c2 := c1 + |company| + |ac|;
      && |l| == c2 + |company| + |asc| + |cl| + |name|
      && l[..|g|] == g
      && l[t..t + |title|] == title
      && l[c1..c1 + |company|] == company
      && l[c2..c2 + |company|] == company
      && l[|l| - |cl| - |name|..] == cl + name
  {
    var l := g + i + title + at + company + ac + company + asc + cl + name;
    var t := |g| + |i|;
    var c1 := t + |title| + |at|;
    var c2 := c1 + |company| + |ac|;
    assert l[..|g|] == g;
    assert l[t..t + |title|] == title;
    assert l[c1..c1 + |company|] == company;
    assert l[c2..c2 + |company|] == company;
    assert l[|l| - |cl| - |name|..] == cl + name;
  }

  /** The letter opens with the greeting, closes with the sign-off and the
      user's name, and carries the job title once and the company twice,
      verbatim, at fixed places between the fixed text. */
  lemma LetterShape(jobTitle: string, company: string, userName: string)
    ensures var l := Letter(jobTitle, company, userName);
      var t := |Greeting| + |Intro|;
      var c1 := t + |jobTitle| + |AfterTitle|;
      var c2 := c1 + |company| + |AfterCompany|;
      && l[..|Greeting|] == Greeting
      && l[t..t + |jobTitle|] == jobTitle
      && l[c1..c1 + |company|] == company
      && l[c2..c2 + |company|] == company
      && l[|l| - |Closing| - |userName|..] == Closing + userName
  {
    TemplateShape(Greeting, Intro, AfterTitle, AfterCompany, AfterSecondCompany, Closing, jobTitle, company, userName);
  }

  /** The letter does not depend on the job description. */
  lemma LetterIgnoresJobDescription(form: map<string, string>, description: string, userName: string)
    requires FormFields <= form.Keys
    ensures var form' := form["jobDescription" := description];
      Letter(form'["jobTitle"], form'["company"], userName) == Letter(form["jobTitle"], form["company"], userName)
  {
  }

  class CoverLetterForm {
    const userName: string
    var formData: map<string, string>
    var generatedLetter: string
    var loading: bool
    /** Forms captured by scheduled timeouts that have not fired yet, oldest first. */
    var pending: seq<map<string, string>>

    predicate Valid()
      reads this
    {
      && FormFields <= formData.Keys
      && forall i :: 0 <= i < |pending| ==> FormFields <= pending[i].Keys
    }

    constructor (userName: string)
      ensures Valid()
      ensures this.userName == userName && formData == EmptyForm
      ensures generatedLetter == "" && !loading && pending == []
    {
      this.userName := userName;
      formData := EmptyForm;
      generatedLetter, loading, pending := "", false, [];
    }

    /** `handleChange`: the named input takes the new value; every other
        field keeps its value. */
    method HandleChange(name: string, value: string)
      requires Valid()
      modifies this`formData
      ensures Valid()
      ensures formData == old(formData)[name := value]
      ensures formData[name] == value
      ensures forall k :: k in old(formData) && k != name ==> k in formData && formData[k] == old(formData)[k]
    {
      formData := formData[name := value];
    }

    /** `handleSubmit`: sets `loading` and schedules the letter for the
        form as it is now. */
    method HandleSubmit()
      requires Valid()
      modifies this`loading, this`pending
      ensures Valid()
      ensures loading && pending == old(pending) + [formData]
    {
      loading := true;
      pending := pending + [formData];
    }

    /** The oldest scheduled timeout fires: its letter is shown and
        `loading` is cleared.  With nothing scheduled nothing happens. */
    method DelayElapsed() returns (fired: bool)
      requires Valid()
      modifies this`generatedLetter, this`loading, this`pending
      ensures Valid()
      ensures fired <==> old(pending) != []
      ensures fired ==> !loading && pending == old(pending)[1..]
      ensures fired ==>
        generatedLetter == Letter(old(pending)[0]["jobTitle"], old(pending)[0]["company"], userName)
      ensures !fired ==> generatedLetter == old(generatedLetter) && loading == old(loading) && pending == []
    {
      if pending == [] {
        return false;
      }
      var form := pending[0];
      generatedLetter := Letter(form["jobTitle"], form["company"], userName);
      loading := false;
      pending := pending[1..];
      fired := true;
    }

    /** The generate button is disabled while a letter is being produced. */
    function SubmitDisabled(): (disabled: bool)
      reads this
      ensures disabled <==> loading
    {
      loading
    }
  }
}
