/** The sett-details form of the badger-sett survey: four field validators,
    the grid-reference normaliser, and the handler that records the
    validation outcome in the user's session and, when every field is valid,
    appends a new sett to the session's list or overwrites the one being
    edited. */
module SettDetails {
  import opened Wrappers
  import opened JsText

  /** What the handler tells the router: show the form again, or move on. */
  datatype ReturnState = Error | Positive

  /** The submitted form; a field the browser did not send is None. */
  datatype Body = Body(
    currentSettId: Option<string>,
    currentGridReference: Option<string>,
    currentSettType: Option<string>,
    currentEntrances: Option<string>)

  /** One recorded sett. */
  datatype Sett = Sett(id: string, settType: int, gridReference: string, entrances: int)

  // ------------------------------------------------------------ sett id

  /** The sett-id check: sent and non-empty once trimmed. */
  function ValidSettId(settId: Option<string>): bool {
    if settId.None? then false
    else if Trim(settId.value) == "" then false
    else true
  }

  /** A sett id is valid exactly when it was sent and is not blank. */
  lemma ValidSettIdMeansNotBlank(settId: Option<string>)
    ensures ValidSettId(settId) <==>
              settId.Some? && exists k :: 0 <= k < |settId.value| && !IsWhiteSpace(settId.value[k])
  {
    if settId.Some? {
      TrimStripsWhiteSpace(settId.value);
    }
  }

  // ------------------------------------------------------ grid reference

  /** The characters a normalised grid reference is made of: `[A-Z\d]`. */
  predicate IsGridChar(c: char) {
    IsUpperLetter(c) || IsDigit(c)
  }

  /** `replace(/[^A-Z\d]/g, '')`: the grid characters of `s`, in order. */
  function KeepGridChars(s: string): string {
    if s == [] then []
    else (if IsGridChar(s[0]) then [s[0]] else []) + KeepGridChars(s[1..])
  }

  /** Upper-case the user's grid reference and drop everything that is not an
      upper-case letter or a digit. */
  function FormatGridReference(gridRef: string): string {
    KeepGridChars(ToUpperCase(gridRef))
  }

  /** The `AA00000000` form of `validGridReference`: two letters followed by
      an even number, at least eight, of digits. */
  predicate IsGridReference(f: string) {
    |f| >= 2 && IsUpperLetter(f[0]) && IsUpperLetter(f[1])
    && AllDigits(f[2..]) && |f[2..]| >= 8 && |f[2..]| % 2 == 0
  }

  /** `/^[A-Z]{2}\d{8,}$/.test(f)`: two letters, then a run of eight or more
      digits, then the end of the text. */
  predicate MatchesGridPattern(f: string) {
    |f| >= 2 && IsUpperLetter(f[0]) && IsUpperLetter(f[1])
    && var digits := LeadingDigits(f[2..]); digits >= 8 && 2 + digits == |f|
  }

  /** The grid-reference check: sent, of even length once normalised, and
      matching the pattern. */
  function ValidGridReference(gridRef: Option<string>): bool {
    if gridRef.None? then false
    else
      var formattedGridRef := FormatGridReference(gridRef.value);
      if |formattedGridRef| % 2 != 0 then false
      else MatchesGridPattern(formattedGridRef)
  }

  /** A grid reference is valid exactly when it was sent and its normalised
      form is two letters followed by an even number, at least eight, of digits. */
  lemma ValidGridReferenceMeansWellFormed(gridRef: Option<string>)
    ensures ValidGridReference(gridRef) <==>
              gridRef.Some? && IsGridReference(FormatGridReference(gridRef.value))
  {
    if gridRef.Some? {
      var f := FormatGridReference(gridRef.value);
      if |f| >= 2 {
        assert f[2..][..|f| - 2] == f[2..];
      }
      if IsGridReference(f) {
        LeadingDigitsOfPrefix(f[2..], []);
        assert f[2..] + [] == f[2..];
      }
    }
  }

  // ----------------------------------------------------------- sett type

  /** The sett-type check: a leading integer from 1 to 4. */
  function ValidSettType(settType: Option<string>): bool {
    var testParse := ParseInt(settType);
    if testParse.None? then false
    else if testParse.value < 1 then false
    else if testParse.value > 4 then false
    else true
  }


  // ----------------------------------------------------------- entrances

  /** The entrance-count check: sent, not blank, and with a leading integer. */
  function ValidEntrances(entrances: Option<string>): bool {
    if entrances.None? then false
    else if Trim(entrances.value) == "" then false
    else ParseInt(entrances).Some?
  }

  /** An entrance count is valid exactly when it has a leading integer: the
      blank check in front of the parse rejects nothing more, and there is no
      range check, so zero and negative counts pass. */
  lemma ValidEntrancesMeansInteger(entrances: Option<string>)
    ensures ValidEntrances(entrances) <==> ParseInt(entrances).Some?
  {
    if entrances.Some? && Trim(entrances.value) == "" {
      TrimStripsWhiteSpace(entrances.value);
      ParseIntOfBlank(entrances.value);
    }
  }

  // -------------------------------------------------------- the handler

  /** All four fields pass their validators. */
  predicate ValidSubmission(body: Body) {
    ValidSettId(body.currentSettId) && ValidGridReference(body.currentGridReference)
    && ValidSettType(body.currentSettType) && ValidEntrances(body.currentEntrances)
  }

  /** What a stored sett looks like: a trimmed non-empty id, a type from 1
      to 4 and a grid reference in normalised form. */
  predicate WellFormedSett(s: Sett) {
    s.id != [] && Trim(s.id) == s.id && 1 <= s.settType <= 4 && IsGridReference(s.gridReference)
  }

  predicate AllWellFormed(setts: Option<seq<Sett>>) {
    setts.Some? ==> forall j :: 0 <= j < |setts.value| ==> WellFormedSett(setts.value[j])
  }

  /** The sett a valid submission describes: the trimmed id, the parsed type
      and entrance count, and the normalised grid reference. */
  function ParsedSett(body: Body): Sett
    requires ValidSubmission(body)
  {
    Sett(Trim(body.currentSettId.value), ParseInt(body.currentSettType).value,
         FormatGridReference(body.currentGridReference.value),
         ParseInt(body.currentEntrances).value)
  }

  /** A valid submission describes a well-formed sett whose type and entrance
      count are the integers the form fields start with. */
  lemma ParsedSettIsWellFormed(body: Body)
    requires ValidSubmission(body)
    ensures WellFormedSett(ParsedSett(body))
    ensures FormatGridReference(ParsedSett(body).gridReference) == ParsedSett(body).gridReference
    ensures Some(ParsedSett(body).settType) == ParseInt(body.currentSettType)
    ensures Some(ParsedSett(body).entrances) == ParseInt(body.currentEntrances)
  {
    TrimIdempotent(body.currentSettId.value);
    FormatGridReferenceIdempotent(body.currentGridReference.value);
    ValidGridReferenceMeansWellFormed(body.currentGridReference);
  }

  /** The list a new sett is appended to: the session's, or a fresh empty one. */
  function StoredSetts(setts: Option<seq<Sett>>): seq<Sett> {
    if setts.Some? then setts.value else []
  }

  /** The session's list once a valid sett `s` is recorded: appended when no
      sett is being edited (index -1), otherwise put in place of the edited one. */
  function Upserted(setts: Option<seq<Sett>>, index: int, s: Sett): seq<Sett>
    requires index != -1 ==> setts.Some? && 0 <= index < |setts.value|
  {
    if index == -1 then StoredSetts(setts) + [s] else setts.value[index := s]
  }

  /** A new sett goes after all the earlier ones, which stay as they were. */
  lemma UpsertedAppends(setts: Option<seq<Sett>>, s: Sett)
    ensures var r := Upserted(setts, -1, s);
            && |r| == |StoredSetts(setts)| + 1
            && r[|r| - 1] == s
            && (forall j :: 0 <= j < |r| - 1 ==> r[j] == StoredSetts(setts)[j])
  {
  }

  /** An edited sett is replaced in place; no other sett changes. */
  lemma UpsertedOverwrites(setts: Option<seq<Sett>>, index: int, s: Sett)
    requires setts.Some? && 0 <= index < |setts.value|
    ensures var r := Upserted(setts, index, s);
            && |r| == |setts.value|
            && r[index] == s
            && (forall j :: 0 <= j < |r| && j != index ==> r[j] == setts.value[j])
  {
  }

  /** Recording a well-formed sett keeps every stored sett well formed. */
  lemma UpsertedKeepsWellFormed(setts: Option<seq<Sett>>, index: int, s: Sett)
    requires index != -1 ==> setts.Some? && 0 <= index < |setts.value|
    requires AllWellFormed(setts) && WellFormedSett(s)
    ensures AllWellFormed(Some(Upserted(setts, index, s)))
  {
    var r := Upserted(setts, index, s);
    forall j | 0 <= j < |r|
      ensures WellFormedSett(r[j])
    {
      if index == -1 && j < |r| - 1 {
        assert r[j] == StoredSetts(setts)[j];
      }
    }
  }

  /** Every submission that the handler accepts leaves only well-formed setts
      in a session that held only well-formed ones. */
  lemma SubmissionKeepsWellFormed(setts: Option<seq<Sett>>, index: int, body: Body)
    requires ValidSubmission(body)
    requires index != -1 ==> setts.Some? && 0 <= index < |setts.value|
    requires AllWellFormed(setts)
    ensures AllWellFormed(Some(Upserted(setts, index, ParsedSett(body))))
  {
    ParsedSettIsWellFormed(body);
    UpsertedKeepsWellFormed(setts, index, ParsedSett(body));
  }

  /** The session of one user, as far as the sett-details form uses it. */
  class Session {
    var currentSettId: string
    var currentGridReference: string
    var currentSettType: Option<int>
    var currentEntrances: Option<string>
    var currentSettIdError: bool
    var currentGridReferenceError: bool
    var currentSettTypeError: bool
    var currentEntrancesError: bool
    var settDetailsError: bool
    var settCountError: bool
    /** -1 while a new sett is being entered, otherwise the sett being edited. */
    var currentSettIndex: int
    /** None until the first sett is added. */
    var setts: Option<seq<Sett>>

    constructor (currentSettIndex: int, setts: Option<seq<Sett>>)
      ensures this.currentSettIndex == currentSettIndex && this.setts == setts
      ensures !currentSettIdError && !currentGridReferenceError && !currentSettTypeError
      ensures !currentEntrancesError && !settDetailsError && !settCountError
      ensures currentSettId == "" && currentGridReference == ""
      ensures currentSettType == None && currentEntrances == None
    {
      this.currentSettIndex := currentSettIndex;
      this.setts := setts;
      currentSettId, currentGridReference := "", "";
      currentSettType, currentEntrances := None, None;
      currentSettIdError, currentGridReferenceError := false, false;
      currentSettTypeError, currentEntrancesError := false, false;
      settDetailsError, settCountError := false, false;
    }

    /** Handle one submission of the sett-details form: record a verdict per
        field; on any invalid field echo the input and report an error,
        otherwise record the sett (Upserted) and move on. */
    method SubmitSettDetails(body: Body) returns (r: ReturnState)
      // Both branches call trim() on these two fields.
      requires body.currentSettId.Some? && body.currentGridReference.Some?
      // The update branch indexes the list without a bounds check.
      requires ValidSubmission(body) && currentSettIndex != -1 ==>
                 setts.Some? && 0 <= currentSettIndex < |setts.value|
      modifies this
      ensures currentSettIdError == !ValidSettId(body.currentSettId)
      ensures currentGridReferenceError == !ValidGridReference(body.currentGridReference)
      ensures currentSettTypeError == !ValidSettType(body.currentSettType)
      ensures currentEntrancesError == !ValidEntrances(body.currentEntrances)
      ensures settDetailsError == (currentSettIdError || currentGridReferenceError
                                   || currentSettTypeError || currentEntrancesError)
      ensures settDetailsError == !ValidSubmission(body)
      ensures currentSettIndex == old(currentSettIndex)
      // Invalid: the input is echoed back, the grid reference trimmed but not normalised.
      ensures settDetailsError ==>
                && r == Error && setts == old(setts) && settCountError == old(settCountError)
                && currentSettId == Trim(body.currentSettId.value)
                && currentSettType == ParseInt(body.currentSettType)
                && currentGridReference == Trim(body.currentGridReference.value)
                && currentEntrances == body.currentEntrances
      // Valid: the sett is recorded, and appending one clears `settCountError`.
      ensures !settDetailsError ==>
                && r == Positive
                && setts == Some(Upserted(old(setts), currentSettIndex, ParsedSett(body)))
                && settCountError == (old(settCountError) && currentSettIndex != -1)
                && currentSettId == old(currentSettId)
                && currentSettType == old(currentSettType)
                && currentGridReference == old(currentGridReference)
                && currentEntrances == old(currentEntrances)
    {
      RecordVerdicts(body);
      r := Respond(body);
    }

    /** Act on the verdict: echo the input and report an error, or record the
        sett and move on. */
    method Respond(body: Body) returns (r: ReturnState)
      requires body.currentSettId.Some? && body.currentGridReference.Some?
      requires settDetailsError == !ValidSubmission(body)
      requires ValidSubmission(body) && currentSettIndex != -1 ==>
                 setts.Some? && 0 <= currentSettIndex < |setts.value|
      modifies this`currentSettId, this`currentSettType, this`currentGridReference, this`currentEntrances
      modifies this`setts, this`settCountError
      ensures settDetailsError ==>
                && r == Error && setts == old(setts) && settCountError == old(settCountError)
                && currentSettId == Trim(body.currentSettId.value)
                && currentSettType == ParseInt(body.currentSettType)
                && currentGridReference == Trim(body.currentGridReference.value)
                && currentEntrances == body.currentEntrances
      ensures !settDetailsError ==>
                && r == Positive
                && setts == Some(Upserted(old(setts), currentSettIndex, ParsedSett(body)))
                && settCountError == (old(settCountError) && currentSettIndex != -1)
                && currentSettId == old(currentSettId)
                && currentSettType == old(currentSettType)
                && currentGridReference == old(currentGridReference)
                && currentEntrances == old(currentEntrances)
    {
      if settDetailsError {
        EchoInput(body);
        return Error;
      }
      if currentSettIndex == -1 {
        AppendSett(body);
      } else {
        OverwriteSett(body);
      }
      return Positive;
    }

    /** The four per-field error flags and the aggregate flag, which is set
        exactly when the submission is not valid. */
    method RecordVerdicts(body: Body)
      modifies this`currentSettIdError, this`currentGridReferenceError
      modifies this`currentSettTypeError, this`currentEntrancesError, this`settDetailsError
      ensures currentSettIdError == !ValidSettId(body.currentSettId)
      ensures currentGridReferenceError == !ValidGridReference(body.currentGridReference)
      ensures currentSettTypeError == !ValidSettType(body.currentSettType)
      ensures currentEntrancesError == !ValidEntrances(body.currentEntrances)
      ensures settDetailsError == (currentSettIdError || currentGridReferenceError
                                   || currentSettTypeError || currentEntrancesError)
      ensures settDetailsError == !ValidSubmission(body)
    {
      currentSettIdError := !ValidSettId(body.currentSettId);
      currentGridReferenceError := !ValidGridReference(body.currentGridReference);
      currentSettTypeError := !ValidSettType(body.currentSettType);
      currentEntrancesError := !ValidEntrances(body.currentEntrances);
      settDetailsError :=
        currentSettIdError || currentGridReferenceError || currentSettTypeError || currentEntrancesError;
    }

    /** Keep the input for the form to show again: the id and the grid
        reference trimmed (the grid reference not normalised), the type
        parsed, the entrance count as sent. */
    method EchoInput(body: Body)
      requires body.currentSettId.Some? && body.currentGridReference.Some?
      modifies this`currentSettId, this`currentSettType, this`currentGridReference, this`currentEntrances
      ensures currentSettId == Trim(body.currentSettId.value)
      ensures currentSettType == ParseInt(body.currentSettType)
      ensures currentGridReference == Trim(body.currentGridReference.value)
      ensures currentEntrances == body.currentEntrances
    {
      currentSettId := Trim(body.currentSettId.value);
      currentSettType := ParseInt(body.currentSettType);
      currentGridReference := Trim(body.currentGridReference.value);
      currentEntrances := body.currentEntrances;
    }

    /** Append the submitted sett, creating the list if there is none yet,
        and clear `settCountError`. */
    method AppendSett(body: Body)
      requires ValidSubmission(body)
      modifies this`setts, this`settCountError
      ensures setts == Some(Upserted(old(setts), -1, ParsedSett(body)))
      ensures !settCountError
    {
      var newSett := Sett(Trim(body.currentSettId.value), ParseInt(body.currentSettType).value,
                          FormatGridReference(body.currentGridReference.value),
                          ParseInt(body.currentEntrances).value);
      if setts.None? {
        setts := Some([]);
      }
      setts := Some(setts.value + [newSett]);
      settCountError := false;
    }

    /** Overwrite the four fields of the sett being edited. */
    method OverwriteSett(body: Body)
      requires ValidSubmission(body)
      requires setts.Some? && 0 <= currentSettIndex < |setts.value|
      modifies this`setts
      ensures setts == Some(Upserted(old(setts), currentSettIndex, ParsedSett(body)))
    {
      var k := currentSettIndex;
      var elements := setts.value;
      var edited := elements[k];
      edited := edited.(id := Trim(body.currentSettId.value));
      edited := edited.(settType := ParseInt(body.currentSettType).value);
      edited := edited.(gridReference := FormatGridReference(body.currentGridReference.value));
      edited := edited.(entrances := ParseInt(body.currentEntrances).value);
      setts := Some(elements[k := edited]);
    }
  }

  // --------------------------------------------- grid-reference lemmas

  /** Normalising distributes over concatenation. */
  lemma {:induction false} KeepGridCharsConcat(a: string, b: string)
    ensures KeepGridChars(a + b) == KeepGridChars(a) + KeepGridChars(b)
  {
    if a != [] {
      assert (a + b)[0] == a[0] && (a + b)[1..] == a[1..] + b;
      KeepGridCharsConcat(a[1..], b);
      var head := if IsGridChar(a[0]) then [a[0]] else [];
      calc {
        KeepGridChars(a + b);
        head + KeepGridChars(a[1..] + b);
        head + (KeepGridChars(a[1..]) + KeepGridChars(b));
        (head + KeepGridChars(a[1..])) + KeepGridChars(b);
        KeepGridChars(a) + KeepGridChars(b);
      }
    } else {
      assert a + b == b;
    }
  }

  lemma {:induction false} FormatGridReferenceConcat(a: string, b: string)
    ensures FormatGridReference(a + b) == FormatGridReference(a) + FormatGridReference(b)
  {
    assert ToUpperCase(a + b) == ToUpperCase(a) + ToUpperCase(b);
    KeepGridCharsConcat(ToUpperCase(a), ToUpperCase(b));
  }

  /** Character by character: upper-case letters and digits are kept, lower-case
      ASCII letters become upper-case, everything else is dropped. */
  lemma FormatGridReferenceOfChar(c: char)
    ensures IsGridChar(c) ==> FormatGridReference([c]) == [c]
    ensures IsLowerLetter(c) ==> FormatGridReference([c]) == [(c as int - 32) as char]
    ensures !IsGridChar(c) && !IsLowerLetter(c) ==> FormatGridReference([c]) == []
  {
    assert ToUpperCase([c]) == [ToUpper(c)];
    assert KeepGridChars([ToUpper(c)]) == (if IsGridChar(ToUpper(c)) then [ToUpper(c)] else []) + KeepGridChars([]);
  }

  /** A string already made of grid characters is left as it is. */
  lemma {:induction false} KeepGridCharsOfClean(s: string)
    requires IsClean(s)
    ensures KeepGridChars(s) == s
  {
    if s != [] {
      KeepGridCharsOfClean(s[1..]);
    }
  }

  /** Normalising twice is normalising once. */
  lemma FormatGridReferenceIdempotent(gridRef: string)
    ensures FormatGridReference(FormatGridReference(gridRef)) == FormatGridReference(gridRef)
  {
    var f := FormatGridReference(gridRef);
    FormatGridReferenceIsClean(gridRef);
    assert ToUpperCase(f) == f;
    KeepGridCharsOfClean(f);
  }

  /** What is kept holds only `A-Z` and `0-9`, and is no longer than the input. */
  lemma {:induction false} KeepGridCharsIsClean(s: string)
    ensures IsClean(KeepGridChars(s)) && |KeepGridChars(s)| <= |s|
  {
    if s != [] {
      KeepGridCharsIsClean(s[1..]);
      var head := if IsGridChar(s[0]) then [s[0]] else [];
      assert KeepGridChars(s) == head + KeepGridChars(s[1..]);
    }
  }

  /** The normalised form holds only `A-Z` and `0-9`, and is no longer than
      the input. */
  lemma FormatGridReferenceIsClean(gridRef: string)
    ensures IsClean(FormatGridReference(gridRef))
    ensures |FormatGridReference(gridRef)| <= |gridRef|
  {
    KeepGridCharsIsClean(ToUpperCase(gridRef));
  }

  lemma FormatGridReferenceExample()
    ensures FormatGridReference("-NH_6400 4800__") == "NH64004800"
  {
    FormatGridReferenceOfCapitals("-NH_6400 4800__");
    KeepGridCharsExample();
  }

  /** Text without lower-case letters is only filtered. */
  lemma FormatGridReferenceOfCapitals(gridRef: string)
    requires forall k :: 0 <= k < |gridRef| ==> !IsLowerLetter(gridRef[k])
    ensures FormatGridReference(gridRef) == KeepGridChars(gridRef)
  {
    assert ToUpperCase(gridRef) == gridRef;
  }

  lemma KeepGridCharsExample()
    ensures KeepGridChars("-NH_6400 4800__") == "NH64004800"
  {
    var s := "-" + ("NH" + ("_" + ("6400" + (" " + ("4800" + "__")))));
    KeepGridCharsOfChunks("-", "NH", "_", "6400", " ", "4800", "__");
    assert s == "-NH_6400 4800__" by {
      assert |s| == 15;
      forall i | 0 <= i < 15
        ensures s[i] == "-NH_6400 4800__"[i]
      {
      }
    }
    assert "NH" + ("6400" + "4800") == "NH64004800";
  }

  /** Noise, a clean run, noise, a clean run, ...: only the clean runs remain. */
  lemma KeepGridCharsOfChunks(a: string, b: string, c: string, d: string, e: string, f: string, g: string)
    requires IsNoise(a) && IsNoise(c) && IsNoise(e) && IsNoise(g)
    requires IsClean(b) && IsClean(d) && IsClean(f)
    ensures KeepGridChars(a + (b + (c + (d + (e + (f + g)))))) == b + (d + f)
  {
    KeepGridCharsOfNoise(g);
    KeepGridCharsOfNoiseThenClean(e, f, g);
    KeepGridCharsOfNoiseThenClean(c, d, e + (f + g));
    KeepGridCharsOfNoiseThenClean(a, b, c + (d + (e + (f + g))));
  }

  predicate IsClean(s: string) {
    forall k :: 0 <= k < |s| ==> IsGridChar(s[k])
  }

  predicate IsNoise(s: string) {
    forall k :: 0 <= k < |s| ==> !IsGridChar(s[k])
  }

  /** Noise is dropped and a clean run is kept, whatever follows. */
  lemma KeepGridCharsOfNoiseThenClean(noise: string, clean: string, rest: string)
    requires IsNoise(noise) && IsClean(clean)
    ensures KeepGridChars(noise + (clean + rest)) == clean + KeepGridChars(rest)
  {
    var tail := clean + rest;
    KeepGridCharsConcat(noise, tail);
    KeepGridCharsOfNoise(noise);
    KeepGridCharsConcat(clean, rest);
    KeepGridCharsOfClean(clean);
    assert [] + KeepGridChars(tail) == KeepGridChars(tail);
  }

  /** A string with no grid character normalises to nothing. */
  lemma {:induction false} KeepGridCharsOfNoise(s: string)
    requires IsNoise(s)
    ensures KeepGridChars(s) == []
  {
    if s != [] {
      KeepGridCharsOfNoise(s[1..]);
    }
  }

  /** Normalising first does not change the verdict. */
  lemma ValidGridReferenceOfFormatted(gridRef: string)
    ensures ValidGridReference(Some(FormatGridReference(gridRef))) == ValidGridReference(Some(gridRef))
  {
    FormatGridReferenceIdempotent(gridRef);
  }

  /** An accepted reference, once normalised, is two letters and an even
      number, at least eight, of digits. */
  lemma ValidGridReferenceDigitCount(gridRef: string)
    requires ValidGridReference(Some(gridRef))
    ensures var f := FormatGridReference(gridRef);
            |f| >= 10 && IsUpperLetter(f[0]) && IsUpperLetter(f[1])
            && (forall k :: 2 <= k < |f| ==> IsDigit(f[k]))
            && (|f| - 2) % 2 == 0
  {
    var f := FormatGridReference(gridRef);
    forall k | 2 <= k < |f| ensures IsDigit(f[k]) {
      assert f[k] == f[2..][k - 2];
    }
  }

  /** An odd-length normalised reference is always rejected. */
  lemma ValidGridReferenceRejectsOddLength(gridRef: string)
    requires |FormatGridReference(gridRef)| % 2 == 1
    ensures !ValidGridReference(Some(gridRef))
  {
  }

  lemma ValidGridReferenceAcceptsExample()
    ensures ValidGridReference(Some("-NH_6400 4800__"))
  {
    FormatGridReferenceExample();
    ValidGridReferenceOfNormalisedExample("-NH_6400 4800__");
  }

  /** Whatever normalises to NH64004800 is accepted. */
  lemma ValidGridReferenceOfNormalisedExample(gridRef: string)
    requires FormatGridReference(gridRef) == "NH64004800"
    ensures ValidGridReference(Some(gridRef))
  {
    var digits := "64004800";
    assert "NH64004800"[2..] == digits;
    LeadingDigitsOfPrefix(digits, []);
    assert digits + [] == digits;
  }

  /** Fewer than ten characters left after normalising is too few. */
  lemma ValidGridReferenceRejectsTooShort(gridRef: string)
    requires |FormatGridReference(gridRef)| < 10
    ensures !ValidGridReference(Some(gridRef))
  {
    ValidGridReferenceMeansWellFormed(Some(gridRef));
  }

  /** Six digits and four digits are too few. */
  lemma ValidGridReferenceRejectsShortExamples()
    ensures !ValidGridReference(Some("NH640480"))
    ensures !ValidGridReference(Some("AB1234"))
  {
    FormatGridReferenceIsClean("NH640480");
    ValidGridReferenceRejectsTooShort("NH640480");
    FormatGridReferenceIsClean("AB1234");
    ValidGridReferenceRejectsTooShort("AB1234");
  }

  /** An absent reference and an odd count of digits are rejected. */
  lemma ValidGridReferenceRejectsOddExample()
    ensures !ValidGridReference(None)
    ensures !ValidGridReference(Some("NH6404801"))
  {
    ValidGridReferenceOfClean("NH6404801");
  }

  /** Text already in normalised form is judged as it stands. */
  lemma ValidGridReferenceOfClean(f: string)
    requires IsClean(f)
    ensures ValidGridReference(Some(f)) <==> IsGridReference(f)
  {
    assert ToUpperCase(f) == f;
    KeepGridCharsOfClean(f);
    ValidGridReferenceMeansWellFormed(Some(f));
  }

  // --------------------------------------------------- sett-type lemmas

  /** With the leading integer written out: a type is accepted exactly when
      it carries no minus sign and its digits denote 1 to 4. */
  lemma ValidSettTypeOfLeadingInteger(s: string, ws: string, sign: string, digits: string, rest: string)
    requires s == ws + sign + digits + rest
    requires AllWhiteSpace(ws) && IsSign(sign)
    requires digits != [] && AllDigits(digits)
    requires rest == [] || !IsDigit(rest[0])
    ensures ValidSettType(Some(s)) <==> sign != "-" && 1 <= DecimalValue(digits) <= 4
  {
    ParseIntReadsLeadingInteger(s, ws, sign, digits, rest);
  }

  /** An absent type, and text with no digit after its leading whitespace and
      optional sign, are rejected. */
  lemma ValidSettTypeRejectsNoInteger(s: string, ws: string, sign: string, rest: string)
    requires s == ws + sign + rest
    requires AllWhiteSpace(ws) && IsSign(sign)
    requires rest == [] || !IsDigit(rest[0])
    requires sign == "" && rest != [] ==>
               !IsWhiteSpace(rest[0]) && rest[0] != '+' && rest[0] != '-'
    ensures !ValidSettType(None) && !ValidSettType(Some(s))
  {
    ParseIntFindsNoInteger(s, ws, sign, rest);
  }

  /** A one-digit type is accepted exactly when the digit is 1, 2, 3 or 4. */
  lemma ValidSettTypeOfDigit(d: char)
    requires IsDigit(d)
    ensures ValidSettType(Some([d])) <==> '1' <= d <= '4'
  {
    ValidSettTypeOfLeadingInteger([d], "", "", [d], "");
    assert [d][..0] == [];
  }

  // -------------------------------------------------- entrances lemmas

  /** Absent, blank and non-numeric counts are rejected. */
  lemma ValidEntrancesRejects(entrances: string)
    requires AllWhiteSpace(entrances)
    ensures !ValidEntrances(None) && !ValidEntrances(Some(entrances))
  {
    ParseIntOfBlank(entrances);
  }

  /** Every integer, written out, is accepted: zero and negatives included. */
  lemma ValidEntrancesAcceptsEveryInteger(count: int)
    ensures ValidEntrances(Some(IntToString(count)))
  {
    ParseIntInvertsIntToString(count);
  }

  /** Text that starts with neither whitespace, a sign nor a digit is rejected. */
  lemma ValidEntrancesRejectsNonNumeric(entrances: string)
    requires entrances != [] && !IsDigit(entrances[0]) && !IsWhiteSpace(entrances[0])
    requires entrances[0] != '+' && entrances[0] != '-'
    ensures !ValidEntrances(Some(entrances))
  {
    ValidEntrancesMeansInteger(Some(entrances));
    ParseIntFindsNoInteger(entrances, "", "", entrances);
  }
}
