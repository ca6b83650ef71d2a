/** The client's ride form: `validateForm`, which rebuilds the `errors` list
    from the form's fields, and `onSubmit`, which sends nothing unless the
    form is valid and otherwise sends an update for an existing ride or a
    create for a new one. */
module TrajetForm {
  import opened Wrappers

  /** The form's `trajet` object. Numbers are JavaScript numbers. */
  datatype FormData = FormData(
    depart: string,
    destination: string,
    dateDepart: string,
    heure: string,
    placesDisponibles: real,
    prix: real,
    description: string)

  /** The `trajetData` object `onSubmit` sends: the date and the hour are
      joined into one `<date>T<hour>` text. */
  datatype SubmitData = SubmitData(
    depart: string,
    destination: string,
    dateTime: string,
    placesDisponibles: real,
    prix: real,
    description: string)

  /** The request `onSubmit` sends to the client's ride service. */
  datatype Submission = UpdateSubmit(id: string, data: SubmitData) | CreateSubmit(data: SubmitData)

  const DepartRequired := "Le lieu de départ est obligatoire"
  const DestinationRequired := "La destination est obligatoire"
  const DateRequired := "La date de départ est obligatoire"
  const HourRequired := "L'heure de départ est obligatoire"
  const SeatsAtLeastOne := "Le nombre de places disponibles doit être d'au moins 1"
  const PriceMustBePositive := "Le prix doit être supérieur à 0"

  /** The form's initial value. */
  const FreshForm := FormData("", "", "", "08:00", 1.0, 0.0, "")

  /** The number of checks `validateForm` runs. */
  const CheckCount: nat := 6

  /** Whether check `i` of `validateForm` fails on `f`. */
  predicate Fails(f: FormData, i: nat)
    requires i < CheckCount
  {
    if i == 0 then f.depart == ""
    else if i == 1 then f.destination == ""
    else if i == 2 then f.dateDepart == ""
    else if i == 3 then f.heure == ""
    else if i == 4 then f.placesDisponibles < 1.0
    else f.prix <= 0.0
  }

  /** The message check `i` adds when it fails. */
  function Message(i: nat): string
    requires i < CheckCount
  {
    if i == 0 then DepartRequired
    else if i == 1 then DestinationRequired
    else if i == 2 then DateRequired
    else if i == 3 then HourRequired
    else if i == 4 then SeatsAtLeastOne
    else PriceMustBePositive
  }

  /** The error list after the first `n` checks: one message per failed
      check, in the order the checks run. */
  function ErrorsUpTo(f: FormData, n: nat): seq<string>
    requires n <= CheckCount
  {
    if n == 0 then [] else ErrorsUpTo(f, n - 1) + (if Fails(f, n - 1) then [Message(n - 1)] else [])
  }

  /** The error list `validateForm` builds. */
  function FormErrors(f: FormData): seq<string>
  {
    ErrorsUpTo(f, CheckCount)
  }

  /** What a valid form is. */
  predicate FormComplete(f: FormData)
  {
    && f.depart != "" && f.destination != "" && f.dateDepart != "" && f.heure != ""
    && f.placesDisponibles >= 1.0 && f.prix > 0.0
  }

  /** `if (this.trajetId)`: an id is there and is not empty. */
  predicate Editing(trajetId: Option<string>)
  {
    trajetId.Some? && trajetId.value != ""
  }

  function SubmitDataOf(f: FormData): (d: SubmitData)
    ensures d.dateTime == f.dateDepart + "T" + f.heure
    ensures d.depart == f.depart && d.destination == f.destination && d.description == f.description
    ensures d.placesDisponibles == f.placesDisponibles && d.prix == f.prix
  {
    SubmitData(f.depart, f.destination, f.dateDepart + "T" + f.heure, f.placesDisponibles, f.prix, f.description)
  }

  lemma {:induction false} NoErrorsUpTo(f: FormData, n: nat)
    requires n <= CheckCount
    ensures ErrorsUpTo(f, n) == [] <==> forall i :: 0 <= i < n ==> !Fails(f, i)
  {
    if n > 0 {
      NoErrorsUpTo(f, n - 1);
    }
  }

  /** The form is valid exactly when no check fails. */
  lemma NoErrorsIffComplete(f: FormData)
    ensures FormErrors(f) == [] <==> FormComplete(f)
  {
    NoErrorsUpTo(f, CheckCount);
    if FormComplete(f) {
      forall i | 0 <= i < CheckCount
        ensures !Fails(f, i)
      {
      }
    } else {
      assert exists i :: 0 <= i < CheckCount && Fails(f, i) by {
        if f.depart == "" { assert Fails(f, 0); }
        else if f.destination == "" { assert Fails(f, 1); }
        else if f.dateDepart == "" { assert Fails(f, 2); }
        else if f.heure == "" { assert Fails(f, 3); }
        else if f.placesDisponibles < 1.0 { assert Fails(f, 4); }
        else { assert Fails(f, 5); }
      }
    }
  }

  /** The six messages are different texts. */
  lemma MessagesDistinct(i: nat, j: nat)
    requires i < CheckCount && j < CheckCount && i != j
    ensures Message(i) != Message(j)
  {
    assert Message(i)[1] != Message(j)[1] || Message(i)[3] != Message(j)[3] || |Message(i)| != |Message(j)|;
  }

  lemma {:induction false} MessageUpTo(f: FormData, n: nat, i: nat)
    requires n <= CheckCount && i < CheckCount
    ensures Message(i) in ErrorsUpTo(f, n) <==> i < n && Fails(f, i)
    ensures |ErrorsUpTo(f, n)| <= n
  {
    if n > 0 {
      MessageUpTo(f, n - 1, i);
      if i != n - 1 {
        MessagesDistinct(i, n - 1);
      }
    }
  }

  /** The messages of the first `n` checks come in the order the checks run:
      each entry is the message of a failed check, and an earlier entry
      belongs to an earlier check. */
  lemma {:induction false} OrderUpTo(f: FormData, n: nat)
    requires n <= CheckCount
    ensures forall a :: 0 <= a < |ErrorsUpTo(f, n)| ==>
              exists i :: 0 <= i < n && Fails(f, i) && ErrorsUpTo(f, n)[a] == Message(i)
    ensures forall a, b, i, j ::
              (0 <= a < b < |ErrorsUpTo(f, n)| && 0 <= i < CheckCount && 0 <= j < CheckCount &&
               ErrorsUpTo(f, n)[a] == Message(i) && ErrorsUpTo(f, n)[b] == Message(j)) ==> i < j
  {
    if n > 0 {
      var prev := ErrorsUpTo(f, n - 1);
      var e := ErrorsUpTo(f, n);
      OrderUpTo(f, n - 1);
      forall a, b, i, j | 0 <= a < b < |e| && 0 <= i < CheckCount && 0 <= j < CheckCount &&
                          e[a] == Message(i) && e[b] == Message(j)
        ensures i < j
      {
        if b == |prev| {
          assert e[b] == Message(n - 1);
          if j != n - 1 {
            MessagesDistinct(j, n - 1);
          }
          assert e[a] == prev[a];
          MessageUpTo(f, n - 1, i);
        } else {
          assert e[a] == prev[a] && e[b] == prev[b];
        }
      }
      forall a | 0 <= a < |e|
        ensures exists i :: 0 <= i < n && Fails(f, i) && e[a] == Message(i)
      {
        if a == |prev| {
          assert Fails(f, n - 1) && e[a] == Message(n - 1);
        } else {
          assert e[a] == prev[a];
        }
      }
    } else {
      assert ErrorsUpTo(f, n) == [];
    }
  }

  /** Each check's message is in the list exactly when that check fails; the
      list holds one message per failed check and no other, in the order the
      checks run, so no message appears twice. */
  lemma ErrorPerFailedCheck(f: FormData, i: nat)
    requires i < CheckCount
    ensures Message(i) in FormErrors(f) <==> Fails(f, i)
    ensures |FormErrors(f)| <= CheckCount
    ensures forall a :: 0 <= a < |FormErrors(f)| ==>
              exists j :: 0 <= j < CheckCount && Fails(f, j) && FormErrors(f)[a] == Message(j)
    ensures forall a, b, j, l ::
              (0 <= a < b < |FormErrors(f)| && 0 <= j < CheckCount && 0 <= l < CheckCount &&
               FormErrors(f)[a] == Message(j) && FormErrors(f)[b] == Message(l)) ==> j < l
    ensures forall a, b :: 0 <= a < b < |FormErrors(f)| ==> FormErrors(f)[a] != FormErrors(f)[b]
  {
    MessageUpTo(f, CheckCount, i);
    OrderUpTo(f, CheckCount);
    var e := FormErrors(f);
    assert e == ErrorsUpTo(f, CheckCount);
    assert forall a :: 0 <= a < |ErrorsUpTo(f, CheckCount)| ==>
              exists j :: 0 <= j < CheckCount && Fails(f, j) && ErrorsUpTo(f, CheckCount)[a] == Message(j);
    forall a, b | 0 <= a < b < |e|
      ensures e[a] != e[b]
    {
      assert e[a] == ErrorsUpTo(f, CheckCount)[a];
      // equal entries would be the message of one check j with j < j
      var j :| 0 <= j < CheckCount && Fails(f, j) && e[a] == Message(j);
    }
  }

  /** A fresh form whose texts are filled in still fails, on the price
      alone. */
  lemma FreshFormFailsOnPrice(depart: string, destination: string, dateDepart: string)
    requires depart != "" && destination != "" && dateDepart != ""
    ensures FormErrors(FreshForm.(depart := depart, destination := destination, dateDepart := dateDepart))
            == [PriceMustBePositive]
  {
    var g := FreshForm.(depart := depart, destination := destination, dateDepart := dateDepart);
    forall i | 0 <= i < 5
      ensures !Fails(g, i)
    {
    }
    NoErrorsUpTo(g, 5);
    assert Fails(g, 5);
  }

  /** The form component's state. */
  class TrajetFormComponent {
    var trajetId: Option<string>
    var trajet: FormData
    var isLoading: bool
    var errors: seq<string>

    constructor(trajetId: Option<string>)
      ensures this.trajetId == trajetId && trajet == FreshForm && !isLoading && errors == []
    {
      this.trajetId := trajetId;
      trajet := FreshForm;
      isLoading := false;
      errors := [];
    }

    /** `validateForm`: clears `errors`, adds one message per failed check
        and reports whether none failed. It reads nothing but the form, so a
        second call gives the same list. */
    method ValidateForm() returns (ok: bool)
      modifies this
      ensures errors == FormErrors(trajet) && (ok <==> FormComplete(trajet))
      ensures trajet == old(trajet) && trajetId == old(trajetId) && isLoading == old(isLoading)
    {
      var f := trajet;
      var errs: seq<string> := [];
      if f.depart == "" {
        errs := errs + [DepartRequired];
      }
      assert errs == ErrorsUpTo(f, 1);
      if f.destination == "" {
        errs := errs + [DestinationRequired];
      }
      assert errs == ErrorsUpTo(f, 2);
      if f.dateDepart == "" {
        errs := errs + [DateRequired];
      }
      assert errs == ErrorsUpTo(f, 3);
      if f.heure == "" {
        errs := errs + [HourRequired];
      }
      assert errs == ErrorsUpTo(f, 4);
      if f.placesDisponibles < 1.0 {
        errs := errs + [SeatsAtLeastOne];
      }
      assert errs == ErrorsUpTo(f, 5);
      if f.prix <= 0.0 {
        errs := errs + [PriceMustBePositive];
      }
      assert errs == ErrorsUpTo(f, 6);
      NoErrorsIffComplete(f);
      errors := errs;
      ok := |errors| == 0;
    }

    /** `onSubmit`: returns the request it sends, `None` when the form is
        invalid (nothing is sent and `isLoading` stays as it was). */
    method OnSubmit() returns (sent: Option<Submission>)
      modifies this
      ensures errors == FormErrors(trajet) && trajet == old(trajet) && trajetId == old(trajetId)
      ensures sent.None? <==> !FormComplete(trajet)
      ensures sent.None? ==> isLoading == old(isLoading)
      ensures sent.Some? ==> isLoading
      ensures sent.Some? && Editing(trajetId) ==> sent.value == UpdateSubmit(trajetId.value, SubmitDataOf(trajet))
      ensures sent.Some? && !Editing(trajetId) ==> sent.value == CreateSubmit(SubmitDataOf(trajet))
    {
      var ok := ValidateForm();
      if !ok {
        return None;
      }
      isLoading := true;
      var data := SubmitDataOf(trajet);
      if Editing(trajetId) {
        sent := Some(UpdateSubmit(trajetId.value, data));
      } else {
        sent := Some(CreateSubmit(data));
      }
    }
  }
}
