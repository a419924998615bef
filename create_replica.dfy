/**
 * The replica creation page (src/pages/CreateReplica.tsx): the form's
 * length rules, and the submit handler's gate — a connected wallet first,
 * then at least one topic — ending in a toast and, on success, a delayed
 * navigation to the profile page.
 *
 * The form library runs the submit handler only for values that pass every
 * rule. The connected wallet is a parameter of the submit. Lengths are
 * counted in characters.
 */
module CreateReplicaPage {
  import opened Common

  datatype FormValues = FormValues(name: string, specialty: string, era: string, bio: string, knownFor: string)

  datatype FieldError = FieldError(field: string, message: string)

  /** `defaultValues`. */
  const DefaultValues := FormValues("", "", "Modern", "", "")

  const NameTooShort := FieldError("name", "Name must be at least 3 characters")
  const SpecialtyTooShort := FieldError("specialty", "Specialty must be at least 5 characters")
  const EraTooShort := FieldError("era", "Era must be at least 2 characters")
  const BioTooShort := FieldError("bio", "Bio should be at least 50 characters")
  const KnownForTooShort := FieldError("knownFor", "Known for must be at least 5 characters")

  /** `[e]` when the rule is broken, `[]` otherwise. */
  function Check(broken: bool, e: FieldError): (r: seq<FieldError>)
    ensures e in r <==> broken
    ensures forall i :: 0 <= i < |r| ==> r[i] == e
  {
    if broken then [e] else []
  }

  /** The schema's rules, in declaration order: each field's minimum length and its message. */
  function ValidateForm(v: FormValues): (errors: seq<FieldError>)
    ensures errors == [] <==>
      |v.name| >= 3 && |v.specialty| >= 5 && |v.era| >= 2 && |v.bio| >= 50 && |v.knownFor| >= 5
    ensures NameTooShort in errors <==> |v.name| < 3
    ensures SpecialtyTooShort in errors <==> |v.specialty| < 5
    ensures EraTooShort in errors <==> |v.era| < 2
    ensures BioTooShort in errors <==> |v.bio| < 50
    ensures KnownForTooShort in errors <==> |v.knownFor| < 5
  {
    var a, b, c, d, e := Check(|v.name| < 3, NameTooShort), Check(|v.specialty| < 5, SpecialtyTooShort),
      Check(|v.era| < 2, EraTooShort), Check(|v.bio| < 50, BioTooShort), Check(|v.knownFor| < 5, KnownForTooShort);
    assert NameTooShort.field != SpecialtyTooShort.field && NameTooShort.field != EraTooShort.field;
    assert NameTooShort.field != BioTooShort.field && NameTooShort.field != KnownForTooShort.field;
    assert SpecialtyTooShort.field != EraTooShort.field && SpecialtyTooShort.field != BioTooShort.field;
    assert SpecialtyTooShort.field != KnownForTooShort.field && EraTooShort.field != BioTooShort.field;
    assert EraTooShort.field != KnownForTooShort.field && BioTooShort.field != KnownForTooShort.field;
    a + b + c + d + e
  }

  /** The untouched form: only the era, preset to "Modern", passes its rule. */
  lemma DefaultsFailExceptEra()
    ensures ValidateForm(DefaultValues) == [NameTooShort, SpecialtyTooShort, BioTooShort, KnownForTooShort]
  {
  }

  /** The connected wallet, as the page reads it. */
  datatype Wallet = Wallet(address: string)

  datatype Toast = Toast(title: string, description: string, destructive: bool)

  /** What one press of the submit button leads to. */
  datatype SubmitOutcome =
    | FieldErrors(errors: seq<FieldError>)
    | Notified(toast: Toast, navigateAfterDelay: Option<string>)

  const WalletRequired := Toast("Wallet Required", "Please connect your wallet to create a replica", true)
  const TopicsRequired := Toast("Topics Required", "Please select at least one topic for your replica", true)
  const ReplicaCreated := Toast("Replica Created!", "Your physicist replica will be available after review", false)
  const ProfilePath := "/profile"

  /** `onSubmit`, for values that passed the schema. */
  function OnSubmit(wallet: Option<Wallet>, topics: seq<string>): (o: SubmitOutcome)
    ensures o.Notified?
    ensures o.toast == WalletRequired <==> wallet.None?
    ensures o.toast == TopicsRequired <==> wallet.Some? && topics == []
    ensures o.toast == ReplicaCreated <==> wallet.Some? && topics != []
    ensures o.navigateAfterDelay.Some? <==> o.toast == ReplicaCreated
    ensures o.navigateAfterDelay.Some? ==> o.navigateAfterDelay.value == ProfilePath
  {
    if wallet.None? then Notified(WalletRequired, None)
    else if |topics| == 0 then Notified(TopicsRequired, None)
    else Notified(ReplicaCreated, Some(ProfilePath))
  }

  /** `form.handleSubmit(onSubmit)`: the field errors, or what `onSubmit` does. */
  function HandleSubmit(values: FormValues, wallet: Option<Wallet>, topics: seq<string>): (o: SubmitOutcome)
    ensures o.FieldErrors? <==> ValidateForm(values) != []
    ensures o.FieldErrors? ==> o.errors == ValidateForm(values)
    ensures o.Notified? ==> o == OnSubmit(wallet, topics)
  {
    var errors := ValidateForm(values);
    if errors != [] then FieldErrors(errors) else OnSubmit(wallet, topics)
  }

  /** The profile page is reached exactly from valid values, a wallet and at least one topic. */
  lemma CreatedIff(values: FormValues, wallet: Option<Wallet>, topics: seq<string>)
    ensures HandleSubmit(values, wallet, topics).Notified? && HandleSubmit(values, wallet, topics).navigateAfterDelay.Some?
      <==> ValidateForm(values) == [] && wallet.Some? && |topics| > 0
  {
  }

  /** Without a wallet the topics are never looked at. */
  lemma WalletIsCheckedFirst(values: FormValues, topics1: seq<string>, topics2: seq<string>)
    ensures HandleSubmit(values, None, topics1) == HandleSubmit(values, None, topics2)
  {
  }
}
