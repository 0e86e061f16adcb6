/**
 * The public intake page (pages/index.js). This file holds two modules:
 * `Countdown`, the `formatTime` helper that renders the offer's remaining
 * time, and `IntakeWizard`, the four-view wizard `search` -> `offer` ->
 * `form` -> `confirmation` that the `HomePage` component drives through its
 * state setters.
 */
module Countdown {
  import opened Wrappers
  import opened Text

  /** `n.toString().padStart(2, '0')` */
  function TwoDigits(n: nat): (r: string)
    ensures |r| >= 2 && AllDigits(r)
    ensures n < 10 ==> r == "0" + NatToString(n)
    ensures n >= 10 ==> r == NatToString(n)
  {
    var digits := NatToString(n);
    var r := PadStart(digits, 2, '0');
    assert n < 10 ==> r == "0" + digits by {
      if n < 10 {
        assert r[1..] == digits;
      }
    }
    r
  }

  lemma {:induction false} TwoDigitsValue(n: nat)
    ensures AllDigits(TwoDigits(n)) && DigitsValue(TwoDigits(n)) == n
    ensures |TwoDigits(n)| >= 2
    ensures |TwoDigits(n)| == 2 <==> n < 100
  {
    var digits := NatToString(n);
    NatToStringValue(n);
    if |digits| < 2 {
      ZeroPaddedValue(digits, 2 - |digits|);
    }
    if n >= 10 {
      var r := NatToString(n);
      assert r[..|r| - 1] == NatToString(n / 10);
    }
  }

  /** `formatTime(seconds)`: a count of seconds as `HH:MM:SS`; a negative count reads as zero. */
  function FormatTime(seconds: int): (r: string)
    ensures |r| >= 8
  {
    var t := if seconds < 0 then 0 else seconds;
    TwoDigitsValue(t / 3600);
    TwoDigitsValue(t % 3600 / 60);
    TwoDigitsValue(t % 60);
    TwoDigits(t / 3600) + ":" + TwoDigits(t % 3600 / 60) + ":" + TwoDigits(t % 60)
  }

  /**
   * Reads `H...H:MM:SS` (two or more hour digits, minutes and seconds below
   * 60) back into a count of seconds.
   */
  function ParseTime(text: string): Option<nat> {
    if |text| < 8 then None
    else
      var n := |text|;
      var hh, mm, ss := text[..n - 6], text[n - 5..n - 3], text[n - 2..];
      if text[n - 6] == ':' && text[n - 3] == ':' && AllDigits(hh) && AllDigits(mm) && AllDigits(ss)
         && DigitsValue(mm) < 60 && DigitsValue(ss) < 60
      then Some(DigitsValue(hh) * 3600 + DigitsValue(mm) * 60 + DigitsValue(ss))
      else None
  }

  /** The countdown shows the zero time for any negative count. */
  lemma {:induction false} NegativeShowsZero(seconds: int)
    requires seconds < 0
    ensures FormatTime(seconds) == "00:00:00"
  {
    assert NatToString(0) == "0";
    assert TwoDigits(0) == "00";
  }

  /** Hours, minutes and seconds of a count add back up to it. */
  lemma {:induction false} SplitSeconds(t: nat)
    ensures t / 3600 * 3600 + t % 3600 / 60 * 60 + t % 60 == t
    ensures t % 3600 / 60 < 60
  {
    var h, r := t / 3600, t % 3600;
    assert t == h * 3600 + r;
    var m, s := r / 60, r % 60;
    assert r == m * 60 + s;
    assert t % 60 == s by {
      assert t == (h * 60 + m) * 60 + s;
    }
  }

  /** `HH...:MM:SS` built from digit strings reads back as the count they denote. */
  lemma {:induction false} ParseParts(hh: string, mm: string, ss: string, h: nat, m: nat, s: nat)
    requires |hh| >= 2 && |mm| == 2 && |ss| == 2
    requires AllDigits(hh) && AllDigits(mm) && AllDigits(ss)
    requires DigitsValue(hh) == h && DigitsValue(mm) == m && DigitsValue(ss) == s
    requires m < 60 && s < 60
    ensures ParseTime(hh + ":" + mm + ":" + ss) == Some(h * 3600 + m * 60 + s)
  {
    var text := hh + ":" + mm + ":" + ss;
    var n := |text|;
    assert text[..n - 6] == hh;
    assert text[n - 5..n - 3] == mm;
    assert text[n - 2..] == ss;
  }

  lemma {:induction false} ParseTwoDigitParts(h: nat, m: nat, s: nat)
    requires m < 60 && s < 60
    ensures ParseTime(TwoDigits(h) + ":" + TwoDigits(m) + ":" + TwoDigits(s)) == Some(h * 3600 + m * 60 + s)
  {
    TwoDigitsValue(h);
    TwoDigitsValue(m);
    TwoDigitsValue(s);
    ParseParts(TwoDigits(h), TwoDigits(m), TwoDigits(s), h, m, s);
  }

  /**
   * The rendered time reads back as the count it came from: hours, minutes
   * below 60 and seconds below 60 that add up to `seconds`.
   */
  lemma {:induction false} FormatTimeRoundTrip(seconds: nat)
    ensures ParseTime(FormatTime(seconds)) == Some(seconds)
  {
    var h, m, s := seconds / 3600, seconds % 3600 / 60, seconds % 60;
    SplitSeconds(seconds);
    ParseTwoDigitParts(h, m, s);
    assert FormatTime(seconds) == TwoDigits(h) + ":" + TwoDigits(m) + ":" + TwoDigits(s);
  }

  /** Below 100 hours the text is exactly eight characters, `HH:MM:SS`. */
  lemma {:induction false} FormatTimeWidth(seconds: nat)
    ensures |FormatTime(seconds)| == 8 <==> seconds < 360000
  {
    var h, m, s := seconds / 3600, seconds % 3600 / 60, seconds % 60;
    SplitSeconds(seconds);
    TwoDigitsValue(h);
    TwoDigitsValue(m);
    TwoDigitsValue(s);
    assert FormatTime(seconds) == TwoDigits(h) + ":" + TwoDigits(m) + ":" + TwoDigits(s);
  }

}

module IntakeWizard {
  import opened Wrappers
  import opened Text
  import opened Http

  datatype View = SearchView | OfferView | FormView | ConfirmationView

  /** The JSON body of a successful offer search. */
  datatype OfferDetails = OfferDetails(id: string, caseNumber: string, name: string, offerAmount: string, status: string)

  /** A browser `File` picked in a file input. */
  datatype PickedFile = PickedFile(name: string, size: nat, mimetype: string)

  /** The body of `POST /api/offers/search`. */
  datatype SearchRequest = SearchRequest(searchType: string, searchTerm: string)

  /** The multipart body of `POST /api/applications`. */
  datatype Submission = Submission(fields: map<string, string>, files: map<string, PickedFile>, offerId: string)

  /** `24 * 60 * 60`: the seconds an offer stays open. */
  const OfferWindow := 86400

  const RequiredFields := ["fullName", "address", "phone", "email", "profession", "maritalStatus",
                           "bank", "agency", "accountNumber", "accountType"]
  const RequiredFiles := ["residenceProof", "idDocument", "taxClearance", "laborDebtsClearance", "tstCertificate"]

  const SearchFailedMessage := "Ocorreu um erro ao buscar a oferta."
  const SearchUnreachableMessage := "Não foi possível conectar ao servidor. Tente novamente."
  const ExpiredMessage := "O tempo para aceitar esta oferta expirou."
  const MissingFieldPrefix := "Campo obrigatório não preenchido: "
  const MissingFilePrefix := "Documento obrigatório não enviado: "
  const MissingOfferIdMessage := "Erro: ID da oferta não encontrado."
  const SubmitFailedMessage := "Ocorreu um erro ao enviar a aplicação."
  const SubmitUnreachableMessage := "Não foi possível conectar ao servidor para enviar a aplicação."

  /** The form as the page first shows it, and as a successful submission leaves it. */
  const InitialFormData: map<string, string> := map[
    "fullName" := "", "address" := "", "phone" := "", "email" := "", "profession" := "",
    "maritalStatus" := "", "bank" := "", "agency" := "", "accountNumber" := "", "accountType" := "corrente"]

  const NoFiles: map<string, Option<PickedFile>> := map[
    "residenceProof" := None, "idDocument" := None, "taxClearance" := None,
    "laborDebtsClearance" := None, "tstCertificate" := None]

  /** `!formData[field] || !formData[field].trim()` */
  predicate FieldMissing(formData: map<string, string>, field: string) {
    field !in formData || IsBlank(formData[field])
  }

  /** A field counts as missing exactly when it is absent or trims to the empty string. */
  lemma {:induction false} FieldMissingIsEmptyTrim(formData: map<string, string>, field: string)
    ensures FieldMissing(formData, field) <==> field !in formData || Trim(formData[field]) == ""
  {
  }

  /** `!files[fileKey]` */
  predicate FileMissing(files: map<string, Option<PickedFile>>, key: string) {
    key !in files || files[key].None?
  }

  /** `offerDetails?.id` is truthy. */
  predicate HasOfferId(offer: Option<OfferDetails>) {
    offer.Some? && offer.value.id != ""
  }

  /** `RequiredFields[i]` is the first required field left blank. */
  predicate FirstBlankField(formData: map<string, string>, i: int) {
    && 0 <= i < |RequiredFields| && FieldMissing(formData, RequiredFields[i])
    && forall j :: 0 <= j < i ==> !FieldMissing(formData, RequiredFields[j])
  }

  /** `RequiredFiles[i]` is the first required document not chosen. */
  predicate FirstMissingFile(files: map<string, Option<PickedFile>>, i: int) {
    && 0 <= i < |RequiredFiles| && FileMissing(files, RequiredFiles[i])
    && forall j :: 0 <= j < i ==> !FileMissing(files, RequiredFiles[j])
  }

  predicate FieldsFilled(formData: map<string, string>) {
    forall f :: f in RequiredFields ==> !FieldMissing(formData, f)
  }

  predicate FilesChosen(files: map<string, Option<PickedFile>>) {
    forall k :: k in RequiredFiles ==> !FileMissing(files, k)
  }

  /**
   * The client-side checks of `handleSubmitForm`, in their order: the first
   * required field left blank, else the first required document not chosen,
   * else a missing offer id. `None` means the form may be sent.
   */
  function SubmitProblem(formData: map<string, string>, files: map<string, Option<PickedFile>>,
                         offer: Option<OfferDetails>): (r: Option<string>)
    ensures forall i :: FirstBlankField(formData, i) ==> r == Some(MissingFieldPrefix + RequiredFields[i])
    ensures FieldsFilled(formData) ==>
              forall i :: FirstMissingFile(files, i) ==> r == Some(MissingFilePrefix + RequiredFiles[i])
    ensures FieldsFilled(formData) && FilesChosen(files) ==>
              r == if HasOfferId(offer) then None else Some(MissingOfferIdMessage)
    ensures r.None? ==> FieldsFilled(formData) && FilesChosen(files) && HasOfferId(offer)
  {
    var missingField := BlankFieldFrom(formData, 0);
    if missingField.Some? then
      Some(MissingFieldPrefix + RequiredFields[missingField.value])
    else
      var missingFile := MissingFileFrom(files, 0);
      if missingFile.Some? then
        Some(MissingFilePrefix + RequiredFiles[missingFile.value])
      else if HasOfferId(offer) then
        None
      else
        Some(MissingOfferIdMessage)
  }

  /** The first required field from position `i` on that is left blank. */
  function BlankFieldFrom(formData: map<string, string>, i: nat): (r: Option<nat>)
    ensures r.Some? ==> i <= r.value < |RequiredFields| && FieldMissing(formData, RequiredFields[r.value])
    ensures forall j :: i <= j < (if r.Some? then r.value else |RequiredFields|) ==>
              !FieldMissing(formData, RequiredFields[j])
    decreases |RequiredFields| - i
  {
    if i >= |RequiredFields| then None
    else if FieldMissing(formData, RequiredFields[i]) then Some(i)
    else BlankFieldFrom(formData, i + 1)
  }

  /** The first required document from position `i` on that is not chosen. */
  function MissingFileFrom(files: map<string, Option<PickedFile>>, i: nat): (r: Option<nat>)
    ensures r.Some? ==> i <= r.value < |RequiredFiles| && FileMissing(files, RequiredFiles[r.value])
    ensures forall j :: i <= j < (if r.Some? then r.value else |RequiredFiles|) ==>
              !FileMissing(files, RequiredFiles[j])
    decreases |RequiredFiles| - i
  {
    if i >= |RequiredFiles| then None
    else if FileMissing(files, RequiredFiles[i]) then Some(i)
    else MissingFileFrom(files, i + 1)
  }

  /** The state of the `HomePage` component. */
  class HomePage {
    var currentView: View
    var searchType: string
    var searchTerm: string
    var offerDetails: Option<OfferDetails>
    var timeLeft: int
    var formData: map<string, string>
    var files: map<string, Option<PickedFile>>
    var isLoading: bool
    var errorMessage: string

    /**
     * An offer is held exactly in the offer and form views; in the offer
     * view the countdown has time left; no request is pending between two
     * handlers.
     */
    ghost predicate Valid()
      reads this
    {
      && (offerDetails.Some? <==> currentView == OfferView || currentView == FormView)
      && 0 <= timeLeft <= OfferWindow
      && (currentView == OfferView ==> timeLeft > 0)
      && !isLoading
    }

    constructor ()
      ensures Valid()
      ensures currentView == SearchView && searchType == "caseNumber" && searchTerm == ""
      ensures offerDetails == None && timeLeft == OfferWindow
      ensures formData == InitialFormData && files == NoFiles
      ensures !isLoading && errorMessage == ""
    {
      currentView := SearchView;
      searchType := "caseNumber";
      searchTerm := "";
      offerDetails := None;
      timeLeft := OfferWindow;
      formData := InitialFormData;
      files := NoFiles;
      isLoading := false;
      errorMessage := "";
    }

    /** The search-type select's `onChange`. */
    method SetSearchType(value: string)
      requires Valid()
      modifies this`searchType
      ensures Valid() && searchType == value
    {
      searchType := value;
    }

    /** The search box's `onChange`. */
    method SetSearchTerm(value: string)
      requires Valid()
      modifies this`searchTerm
      ensures Valid() && searchTerm == value
    {
      searchTerm := value;
    }

    /**
     * `handleSearch`, from the search view. `reply` is what the search
     * request comes back with; `sent` is the request made, none for a blank
     * term.
     */
    method HandleSearch(reply: FetchResult<OfferDetails>) returns (sent: Option<SearchRequest>)
      requires Valid() && currentView == SearchView
      modifies this`isLoading, this`errorMessage, this`offerDetails, this`currentView, this`timeLeft, this`searchTerm
      ensures Valid()
      ensures IsBlank(old(searchTerm)) ==> sent == None && unchanged(this)
      ensures !IsBlank(old(searchTerm)) ==>
        && sent == Some(SearchRequest(old(searchType), old(searchTerm)))
        && searchType == old(searchType) && formData == old(formData) && files == old(files)
        && match reply
           case Ok(offer) =>
             && currentView == OfferView && offerDetails == Some(offer) && timeLeft == OfferWindow
             && searchTerm == "" && errorMessage == ""
           case NotOk(_, message) =>
             && currentView == SearchView && offerDetails == None && timeLeft == old(timeLeft)
             && searchTerm == old(searchTerm) && errorMessage == MessageOr(message, SearchFailedMessage)
           case Failed(_) =>
             && currentView == SearchView && offerDetails == None && timeLeft == old(timeLeft)
             && searchTerm == old(searchTerm) && errorMessage == SearchUnreachableMessage
    {
      if IsBlank(searchTerm) {
        return None;
      }
      isLoading := true;
      errorMessage := "";
      offerDetails := None;
      currentView := SearchView;
      sent := Some(SearchRequest(searchType, searchTerm));
      match reply {
        case Ok(offer) =>
          offerDetails := Some(offer);
          timeLeft := OfferWindow;
          currentView := OfferView;
          searchTerm := "";
        case NotOk(_, message) =>
          errorMessage := MessageOr(message, SearchFailedMessage);
          currentView := SearchView;
        case Failed(_) =>
          errorMessage := SearchUnreachableMessage;
          currentView := SearchView;
      }
      isLoading := false;
    }

    /**
     * The countdown effect: while an offer is shown it has an interval
     * running; if the time left has run out it drops the offer and returns
     * to the search view with the expiry message.
     */
    method CountdownEffect()
      requires 0 <= timeLeft <= OfferWindow
      requires offerDetails.Some? <==> currentView == OfferView || currentView == FormView
      requires !isLoading
      modifies this`errorMessage, this`offerDetails, this`currentView
      ensures Valid()
      ensures old(currentView) == OfferView && old(timeLeft) <= 0 ==>
        currentView == SearchView && offerDetails == None && errorMessage == ExpiredMessage
      ensures !(old(currentView) == OfferView && old(timeLeft) <= 0) ==> unchanged(this)
    {
      if currentView != OfferView || offerDetails.None? {
        return;
      }
      if timeLeft <= 0 {
        errorMessage := ExpiredMessage;
        offerDetails := None;
        currentView := SearchView;
        return;
      }
    }

    /**
     * One second passing: the running interval takes one second off the
     * time left, and the effect runs again on the new value.
     */
    method Tick()
      requires Valid()
      modifies this`timeLeft, this`errorMessage, this`offerDetails, this`currentView
      ensures Valid()
      ensures old(currentView) != OfferView ==> unchanged(this)
      ensures old(currentView) == OfferView ==> timeLeft == old(timeLeft) - 1
      ensures old(currentView) == OfferView && old(timeLeft) > 1 ==>
        currentView == OfferView && offerDetails == old(offerDetails) && errorMessage == old(errorMessage)
      ensures old(currentView) == OfferView && old(timeLeft) == 1 ==>
        currentView == SearchView && offerDetails == None && errorMessage == ExpiredMessage
      ensures formData == old(formData) && files == old(files) && searchTerm == old(searchTerm)
    {
      if currentView == OfferView && offerDetails.Some? && timeLeft > 0 {
        timeLeft := timeLeft - 1;
      }
      CountdownEffect();
    }

    /**
     * "Aceitar Oferta e Continuar": on to the form, whose `fullName` the
     * pre-fill effect then sets to the offer's name.
     */
    method AcceptOffer()
      requires Valid() && currentView == OfferView
      modifies this`currentView, this`formData
      ensures Valid()
      ensures currentView == FormView && offerDetails == old(offerDetails)
      ensures formData == old(formData)["fullName" := old(offerDetails).value.name]
      ensures files == old(files) && errorMessage == old(errorMessage) && timeLeft == old(timeLeft)
    {
      currentView := FormView;
      formData := formData["fullName" := offerDetails.value.name];
    }

    /** "Recusar e Voltar": drop the offer and go back to the search. */
    method DeclineOffer()
      requires Valid() && currentView == OfferView
      modifies this`offerDetails, this`currentView, this`errorMessage
      ensures Valid()
      ensures currentView == SearchView && offerDetails == None && errorMessage == ""
      ensures formData == old(formData) && files == old(files) && timeLeft == old(timeLeft)
    {
      offerDetails := None;
      currentView := SearchView;
      errorMessage := "";
    }

    /** "Voltar ao Início" on the confirmation view. */
    method BackToStart()
      requires Valid() && currentView == ConfirmationView
      modifies this`currentView, this`errorMessage
      ensures Valid()
      ensures currentView == SearchView && errorMessage == ""
      ensures offerDetails == old(offerDetails) && formData == old(formData) && files == old(files)
    {
      currentView := SearchView;
      errorMessage := "";
    }

    /** `handleInputChange`: only the named field changes. */
    method HandleInputChange(name: string, value: string)
      requires Valid()
      modifies this`formData
      ensures Valid()
      ensures formData == old(formData)[name := value]
    {
      formData := formData[name := value];
    }

    /** `handleFileChange`: the named slot takes the first chosen file, or none. */
    method HandleFileChange(name: string, chosen: seq<PickedFile>)
      requires Valid()
      modifies this`files
      ensures Valid()
      ensures files == old(files)[name := if |chosen| > 0 then Some(chosen[0]) else None]
    {
      if |chosen| > 0 {
        files := files[name := Some(chosen[0])];
      } else {
        files := files[name := None];
      }
    }

    /**
     * `handleSubmitForm`, from the form view. `reply` is what the submission
     * comes back with; `sent` is the request made, none when a client-side
     * check fails.
     */
    method HandleSubmit(reply: FetchResult<()>) returns (sent: Option<Submission>)
      requires Valid() && currentView == FormView
      modifies this`isLoading, this`errorMessage, this`currentView, this`offerDetails, this`formData, this`files
      ensures Valid()
      ensures var problem := SubmitProblem(old(formData), old(files), old(offerDetails));
        problem.Some? ==>
          && sent == None && errorMessage == problem.value
          && currentView == FormView && offerDetails == old(offerDetails)
          && formData == old(formData) && files == old(files)
      ensures var problem := SubmitProblem(old(formData), old(files), old(offerDetails));
        problem.None? ==>
          && sent == Some(Submission(old(formData), Chosen(old(files)), old(offerDetails).value.id))
          && match reply
             case Ok(_) =>
               && currentView == ConfirmationView && offerDetails == None
               && formData == InitialFormData && files == NoFiles && errorMessage == ""
             case NotOk(_, message) =>
               && currentView == FormView && offerDetails == old(offerDetails)
               && formData == old(formData) && files == old(files)
               && errorMessage == MessageOr(message, SubmitFailedMessage)
             case Failed(_) =>
               && currentView == FormView && offerDetails == old(offerDetails)
               && formData == old(formData) && files == old(files)
               && errorMessage == SubmitUnreachableMessage
      ensures timeLeft == old(timeLeft) && searchTerm == old(searchTerm)
    {
      var problem := SubmitProblem(formData, files, offerDetails);
      isLoading := true;
      errorMessage := "";
      if problem.Some? {
        errorMessage := problem.value;
        isLoading := false;
        return None;
      }
      sent := Some(Submission(formData, Chosen(files), offerDetails.value.id));
      SettleSubmit(reply);
    }

    /** What the submission's reply does to the page, ending the pending request. */
    method SettleSubmit(reply: FetchResult<()>)
      requires offerDetails.Some? && currentView == FormView && 0 <= timeLeft <= OfferWindow
      modifies this`isLoading, this`errorMessage, this`currentView, this`offerDetails, this`formData, this`files
      ensures Valid()
      ensures match reply
        case Ok(_) =>
          && currentView == ConfirmationView && offerDetails == None
          && formData == InitialFormData && files == NoFiles && errorMessage == old(errorMessage)
        case NotOk(_, message) =>
          && currentView == FormView && offerDetails == old(offerDetails)
          && formData == old(formData) && files == old(files)
          && errorMessage == MessageOr(message, SubmitFailedMessage)
        case Failed(_) =>
          && currentView == FormView && offerDetails == old(offerDetails)
          && formData == old(formData) && files == old(files)
          && errorMessage == SubmitUnreachableMessage
      ensures timeLeft == old(timeLeft) && searchTerm == old(searchTerm)
    {
      match reply {
        case Ok(_) =>
          currentView := ConfirmationView;
          offerDetails := None;
          formData := InitialFormData;
          files := NoFiles;
        case NotOk(_, message) =>
          errorMessage := MessageOr(message, SubmitFailedMessage);
        case Failed(_) =>
          errorMessage := SubmitUnreachableMessage;
      }
      isLoading := false;
    }
  }

  /** The files appended to the multipart body: the slots holding a file. */
  function Chosen(files: map<string, Option<PickedFile>>): (r: map<string, PickedFile>)
    ensures forall k :: k in r <==> k in files && files[k].Some?
    ensures forall k :: k in r ==> Some(r[k]) == files[k]
  {
    map k | k in files && files[k].Some? :: files[k].value
  }
}
