/** The five-step campaign wizard (pages/CreateCampaign.tsx): Basics,
    Organizer, Goal, Media and Story. Each step's inputs are shown only on
    that step, "Continue" refuses to leave a step whose fields are missing,
    and the last step submits the form to the service. */
module CreateCampaign {
  import opened Seqs
  import opened Domain
  import opened MockApi
  import opened Text
  import CampaignCard

  /** The number of steps. */
  const StepCount: int := 5

  /** At most this many images are kept. */
  const MaxImages: int := 4

  /** The wizard's form. A date is the milliseconds of a day's midnight, with
      0 standing for an empty date field. */
  datatype Form = Form(
    country: string,
    zip: string,
    category: string,
    organizerName: string,
    organizerPhone: string,
    organizerLocation: string,
    relationship: string,
    beneficiaryName: string,
    targetAmount: string,
    endDate: int,
    imageUrls: seq<string>,
    title: string,
    description: string)

  const EmptyForm: Form := Form("Uganda", "", "", "", "", "", "", "", "", 0, [], "", "")

  /** The bar above the steps: `(currentStep / 5) * 100`. */
  function Progress(step: int): (p: real)
    ensures 1 <= step <= StepCount ==> 0.0 < p <= 100.0
    ensures p == 100.0 <==> step == StepCount
  {
    (step as real / StepCount as real) * 100.0
  }

  /** A later step shows a longer bar. */
  lemma ProgressIncreasing(s: int, t: int)
    requires s < t
    ensures Progress(s) < Progress(t)
  {
  }

  /** The alert "Continue" raises on a step, if that step's fields are missing. */
  function StepGuard(step: int, f: Form): (alert: Option<string>)
    ensures step == 1 ==> (alert.Some? <==> f.category == "")
    ensures step == 2 ==> (alert.Some? <==> f.organizerName == "")
    ensures step == 3 ==> (alert.Some? <==> f.targetAmount == "" || f.endDate == 0)
    ensures step == 4 ==> (alert.Some? <==> f.imageUrls == [])
    ensures step < 1 || step > 4 ==> alert.None?
  {
    if step == 1 && f.category == "" then Some("Please select a category.")
    else if step == 2 && f.organizerName == "" then Some("Please enter the organizer name.")
    else if step == 3 && (f.targetAmount == "" || f.endDate == 0) then Some("Please set a goal and duration.")
    else if step == 4 && |f.imageUrls| == 0 then Some("Please upload a cover photo.")
    else None
  }

  const StoryAlert: string := "Please complete your story."
  const UploadAlert: string := "Failed to upload image. Please try again."

  /** Every field the steps check, and the story, are filled in. */
  predicate Complete(f: Form)
  {
    f.category != "" && f.organizerName != "" && f.targetAmount != "" && f.endDate != 0
    && f.imageUrls != [] && f.title != "" && f.description != ""
  }

  /** A form that got past steps one to four and has a story is complete. */
  lemma {:induction false} GuardsMakeComplete(f: Form)
    requires forall s :: 1 <= s < StepCount ==> StepGuard(s, f).None?
    requires f.title != "" && f.description != ""
    ensures Complete(f)
  {
    assert StepGuard(1, f).None? && StepGuard(2, f).None?;
    assert StepGuard(3, f).None? && StepGuard(4, f).None?;
  }

  /** What `handleSubmit` sends; the organizer fields are sent too, but the
      service keeps none of them. */
  function DraftOf(f: Form): CampaignDraft
  {
    CampaignDraft(Some(f.title), Some(f.description), Some(f.category),
                  Some(NumberOf(f.targetAmount)), Some(f.imageUrls), Some(f.endDate))
  }

  /** A complete form reaches the service intact: none of the service's
      fallbacks (untitled, "General", a placeholder image, ending now) is
      ever used for a campaign made by the wizard. */
  lemma CompleteFormKept(f: Form, now: nat)
    requires Complete(f)
    ensures NewCampaign(DraftOf(f), now).title == f.title
    ensures NewCampaign(DraftOf(f), now).description == f.description
    ensures NewCampaign(DraftOf(f), now).category == f.category
    ensures NewCampaign(DraftOf(f), now).targetAmount == NumberOf(f.targetAmount)
    ensures NewCampaign(DraftOf(f), now).imageUrls == f.imageUrls
    ensures NewCampaign(DraftOf(f), now).endDate == f.endDate
    ensures NewCampaign(DraftOf(f), now).status == CampaignStatus.Pending
  {
  }

  /** Nothing checks the sign of the goal: a typed "-5000" creates a
      campaign whose target is -5000. */
  lemma NegativeGoalKept(f: Form, now: nat)
    requires f.targetAmount == "-5000"
    ensures NewCampaign(DraftOf(f), now).targetAmount == -5000
  {
    assert "5000"[..3] == "500" && "500"[..2] == "50" && "50"[..1] == "5" && "5"[..0] == "";
    assert DigitsValue("5") == 5 && DigitsValue("50") == 50 && DigitsValue("500") == 500;
    assert NumberOf("5000") == 5000;
    NumberOfSigned("5000");
    assert "-" + "5000" == "-5000";
  }

  /** The default end date: the day thirty days from now, at midnight. */
  function DefaultEndDate(now: nat): (d: int)
    ensures d % CampaignCard.DayMs == 0
    ensures now + 29 * CampaignCard.DayMs < d <= now + 30 * CampaignCard.DayMs
  {
    ((now + 30 * CampaignCard.DayMs) / CampaignCard.DayMs) * CampaignCard.DayMs
  }

  /** `[url, ...imageUrls].slice(0, 4)`: the new image first, the oldest
      dropped beyond four. */
  function AddImage(url: string, imageUrls: seq<string>): (r: seq<string>)
    ensures |r| == if |imageUrls| < MaxImages then |imageUrls| + 1 else MaxImages
    ensures r[0] == url
    ensures r[1..] == imageUrls[..|r| - 1]
  {
    var all := [url] + imageUrls;
    assert all[1..] == imageUrls;
    if |all| <= MaxImages then all else all[..MaxImages]
  }

  /** `imageUrls.filter((_, i) => i !== index)`. */
  function RemoveAt(s: seq<string>, index: int): (r: seq<string>)
    ensures 0 <= index < |s| ==> r == s[..index] + s[index + 1..]
    ensures !(0 <= index < |s|) ==> r == s
  {
    if s == [] then []
    else if index == 0 then s[1..]
    else
      var rest := RemoveAt(s[1..], index - 1);
      assert 0 <= index < |s| ==> s[..index] == [s[0]] + s[1..][..index - 1];
      assert 0 <= index < |s| ==> s[index + 1..] == s[1..][index..];
      [s[0]] + rest
  }

  /** The fields whose inputs a step renders: step 1 the category, step 2 the
      organizer's details, step 3 the goal and the end date, step 5 the
      title and the story (the images of step 4 change only by upload and
      removal). */
  predicate EditableOn(step: int, before: Form, after: Form)
  {
    match step
    case 1 => after == before.(category := after.category)
    case 2 => after == before.(organizerName := after.organizerName, organizerPhone := after.organizerPhone,
                               organizerLocation := after.organizerLocation, relationship := after.relationship,
                               beneficiaryName := after.beneficiaryName)
    case 3 => after == before.(targetAmount := after.targetAmount, endDate := after.endDate)
    case 5 => after == before.(title := after.title, description := after.description)
    case _ => after == before
  }

  /** An edit through a step's inputs leaves the earlier steps' checks as
      they were. */
  lemma EditKeepsEarlierSteps(step: int, before: Form, after: Form, s: int)
    requires EditableOn(step, before, after) && s < step
    ensures StepGuard(s, after) == StepGuard(s, before)
  {
  }

  /** The images matter to the media step's check alone. */
  lemma ImagesOnlyMatterOnMedia(f: Form, imageUrls: seq<string>, s: int)
    requires s != 4
    ensures StepGuard(s, f.(imageUrls := imageUrls)) == StepGuard(s, f)
  {
  }

  class Wizard {
    const api: Ledger
    var currentStep: int
    var submitting: bool
    var uploadingImage: bool
    var form: Form
    /** The last alert shown. */
    var alert: Option<string>
    /** Where the wizard navigated to, if anywhere. */
    var navigatedTo: Option<string>

    /** The step number is in range, at most four images are kept, and
        every step before the current one has its fields filled in. */
    predicate Valid()
      reads this
    {
      && 1 <= currentStep <= StepCount
      && |form.imageUrls| <= MaxImages
      && forall s :: 1 <= s < currentStep ==> StepGuard(s, form).None?
    }

    constructor(api: Ledger)
      ensures this.api == api && currentStep == 1 && form == EmptyForm
      ensures !submitting && !uploadingImage && alert.None? && navigatedTo.None?
      ensures Valid()
    {
      this.api := api;
      currentStep := 1;
      submitting := false;
      uploadingImage := false;
      form := EmptyForm;
      alert := None;
      navigatedTo := None;
    }

    /** The mount effect: without a signed-in user the wizard goes to the
        login page; otherwise the organizer's name is the user's. The end
        date defaults to thirty days ahead either way. */
    method Mount(now: nat)
      requires Valid() && currentStep == 1
      modifies this
      ensures Valid() && currentStep == 1
      ensures api.GetCurrentUser().None? ==> navigatedTo == Some("/login") && form == old(form).(endDate := DefaultEndDate(now))
      ensures api.GetCurrentUser().Some? ==>
        && navigatedTo == old(navigatedTo)
        && form == old(form).(organizerName := api.GetCurrentUser().value.fullName, endDate := DefaultEndDate(now))
    {
      var user := api.GetCurrentUser();
      if user.None? {
        navigatedTo := Some("/login");
      } else {
        form := form.(organizerName := user.value.fullName);
      }
      form := form.(endDate := DefaultEndDate(now));
    }

    /** A change made through the current step's inputs. */
    method Edit(changed: Form)
      requires Valid() && EditableOn(currentStep, form, changed)
      modifies this
      ensures Valid()
      ensures form == changed && currentStep == old(currentStep)
    {
      forall s | 1 <= s < currentStep
        ensures StepGuard(s, changed).None?
      {
        EditKeepsEarlierSteps(currentStep, form, changed, s);
      }
      form := changed;
    }

    /** "Continue": a step with missing fields raises its alert and stays;
        otherwise the wizard moves on, and from the last step submits. */
    method HandleNext(now: nat)
      requires Valid() && api.Valid()
      modifies this, api
      ensures Valid() && api.Valid()
      ensures StepGuard(old(currentStep), old(form)).Some? ==>
        && alert == StepGuard(old(currentStep), old(form))
        && currentStep == old(currentStep) && form == old(form)
        && api.campaigns == old(api.campaigns)
      ensures StepGuard(old(currentStep), old(form)).None? && old(currentStep) < StepCount ==>
        && currentStep == old(currentStep) + 1 && form == old(form)
        && api.campaigns == old(api.campaigns)
      ensures old(currentStep) == StepCount ==> Submitted(old(form), old(api.campaigns), now)
      ensures |api.campaigns| == |old(api.campaigns)| + 1 ==> Complete(form)
    {
      var guard := StepGuard(currentStep, form);
      if guard.Some? {
        alert := guard;
        return;
      }
      if currentStep < StepCount {
        currentStep := currentStep + 1;
      } else {
        HandleSubmit(now);
      }
    }

    /** The outcome of submitting `f`: without a title or a story the alert
        is raised and nothing is created; otherwise one PENDING campaign made
        from the form is added and the wizard goes to the dashboard. */
    ghost predicate Submitted(f: Form, before: seq<Campaign>, now: nat)
      reads this, api
    {
      && form == f
      && (f.title == "" || f.description == "" ==>
            alert == Some(StoryAlert) && api.campaigns == before)
      && (f.title != "" && f.description != "" ==>
            api.campaigns == before + [NewCampaign(DraftOf(f), now)]
            && navigatedTo == Some("/dashboard") && !submitting)
    }

    /** `handleSubmit`, reached from the last step. */
    method HandleSubmit(now: nat)
      requires Valid() && api.Valid() && currentStep == StepCount
      modifies this, api
      ensures Valid() && api.Valid()
      ensures Submitted(old(form), old(api.campaigns), now)
      ensures currentStep == old(currentStep)
      ensures |api.campaigns| == |old(api.campaigns)| + 1 ==> Complete(form)
    {
      if form.title == "" || form.description == "" {
        alert := Some(StoryAlert);
        return;
      }
      GuardsMakeComplete(form);
      submitting := true;
      var _ := api.CreateCampaign(DraftOf(form), now);
      submitting := false;
      navigatedTo := Some("/dashboard");
    }

    /** "Back": one step back, never before the first. */
    method HandleBack()
      requires Valid()
      modifies this
      ensures Valid()
      ensures currentStep == if old(currentStep) > 1 then old(currentStep) - 1 else 1
      ensures form == old(form)
    {
      if currentStep > 1 {
        currentStep := currentStep - 1;
      }
    }

    /** The end of an upload on the media step: a failed upload raises its
        alert, a finished one puts the image first. */
    method HandleImageUpload(uploaded: Option<string>)
      requires Valid() && currentStep == 4
      modifies this
      ensures Valid() && !uploadingImage && currentStep == old(currentStep)
      ensures uploaded.None? ==> alert == Some(UploadAlert) && form == old(form)
      ensures uploaded.Some? ==> form == old(form).(imageUrls := AddImage(uploaded.value, old(form).imageUrls))
    {
      uploadingImage := true;
      if uploaded.None? {
        alert := Some(UploadAlert);
      } else {
        var imageUrls := AddImage(uploaded.value, form.imageUrls);
        forall s | 1 <= s < currentStep
          ensures StepGuard(s, form.(imageUrls := imageUrls)).None?
        {
          ImagesOnlyMatterOnMedia(form, imageUrls, s);
        }
        form := form.(imageUrls := imageUrls);
      }
      uploadingImage := false;
    }

    /** The remove button of an image on the media step. */
    method RemoveImage(index: int)
      requires Valid() && currentStep == 4
      modifies this
      ensures Valid() && currentStep == old(currentStep)
      ensures form == old(form).(imageUrls := RemoveAt(old(form).imageUrls, index))
    {
      var imageUrls := RemoveAt(form.imageUrls, index);
      forall s | 1 <= s < currentStep
        ensures StepGuard(s, form.(imageUrls := imageUrls)).None?
      {
        ImagesOnlyMatterOnMedia(form, imageUrls, s);
      }
      form := form.(imageUrls := imageUrls);
    }
  }
}
