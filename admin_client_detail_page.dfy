/**
 * The administrator's page for one client: the avatar initials, the tier and
 * order-status badges, the order count, and the edit form with its field
 * rules and its save and cancel flow.
 */
module AdminClientDetailPage {
  import opened Js
  import opened JsNumber
  import opened Domain

  const LOAD_FAILED := "Impossible de charger le profil client. Vérifiez que l'identifiant est valide."
  const UPDATE_FAILED := "Une erreur s'est produite lors de la mise à jour."
  const NAME_REQUIRED := "Le nom du client est requis"
  const EMAIL_REQUIRED := "L'email est requis"
  const EMAIL_FORMAT := "Format e-mail invalide"
  const PHONE_REQUIRED := "Le téléphone est requis"
  const PHONE_TOO_SHORT := "Numéro trop court"
  const ADDRESS_REQUIRED := "L'adresse est requise"
  const PHONE_MIN_LENGTH := 6

  // ----- initials -----

  /** `s.split(' ')`: the pieces between single spaces, empty ones included. */
  function Split(s: string): (parts: seq<string>)
    ensures |parts| >= 1
    ensures forall k :: 0 <= k < |parts| ==> ' ' !in parts[k]
    decreases |s|
  {
    if s == [] then [""]
    else if s[0] == ' ' then [""] + Split(s[1..])
    else
      var rest := Split(s[1..]);
      [[s[0]] + rest[0]] + rest[1..]
  }

  /** `parts.join(' ')`. */
  function Join(parts: seq<string>): string
    requires |parts| >= 1
  {
    if |parts| == 1 then parts[0] else parts[0] + " " + Join(parts[1..])
  }

  /** Splitting on spaces loses nothing: joining the pieces back gives the
      original text. */
  lemma {:induction false} JoinSplit(s: string)
    ensures Join(Split(s)) == s
    decreases |s|
  {
    if s == [] {
    } else if s[0] == ' ' {
      JoinSplit(s[1..]);
      assert Split(s)[1..] == Split(s[1..]);
    } else {
      JoinSplit(s[1..]);
      var rest := Split(s[1..]);
      if |rest| == 1 {
        assert Split(s) == [[s[0]] + rest[0]];
      } else {
        assert Split(s)[1..] == rest[1..];
      }
    }
  }

  /** A word without spaces followed by a space splits off as one piece. */
  lemma {:induction false} SplitWord(w: string, rest: string)
    requires ' ' !in w
    ensures Split(w + " " + rest) == [w] + Split(rest)
    decreases |w|
  {
    if w == [] {
      assert ("" + " " + rest)[1..] == rest;
    } else {
      assert (w + " " + rest)[1..] == w[1..] + " " + rest;
      SplitWord(w[1..], rest);
      assert [w[0]] + w[1..] == w;
    }
  }

  /** A word without spaces is a single piece. */
  lemma {:induction false} SplitNoSpace(w: string)
    requires ' ' !in w
    ensures Split(w) == [w]
    decreases |w|
  {
    if w != [] {
      SplitNoSpace(w[1..]);
      assert [w[0]] + w[1..] == w;
    }
  }

  /** `.map((p) => p[0]).join('')`: the first letter of each piece; an empty
      piece gives `undefined`, which `join` writes as nothing. */
  function FirstLetters(parts: seq<string>): (r: string)
    ensures |r| <= |parts|
    ensures |parts| == 1 ==> r == (if parts[0] == [] then [] else [parts[0][0]])
    ensures (forall k :: 0 <= k < |parts| ==> parts[k] != []) ==>
      |r| == |parts| && forall k :: 0 <= k < |parts| ==> r[k] == parts[k][0]
  {
    if parts == [] then []
    else
      var tail := FirstLetters(parts[1..]);
      if parts[0] == [] then tail else [parts[0][0]] + tail
  }

  /** The letters of two lists of pieces are the letters of the first list
      followed by those of the second. */
  lemma {:induction false} FirstLettersAppend(a: seq<string>, b: seq<string>)
    ensures FirstLetters(a + b) == FirstLetters(a) + FirstLetters(b)
    decreases |a|
  {
    if a != [] {
      var ab := a + b;
      assert ab[0] == a[0] && ab[1..] == a[1..] + b;
      FirstLettersAppend(a[1..], b);
    } else {
      assert a + b == b;
    }
  }

  /** An empty piece, wherever it stands, contributes no letter. */
  lemma EmptyPieceHasNoLetter(a: seq<string>, b: seq<string>)
    ensures FirstLetters(a + [""] + b) == FirstLetters(a + b)
  {
    FirstLettersAppend(a + [""], b);
    FirstLettersAppend(a, [""]);
    assert FirstLetters([""]) == [];
    assert FirstLetters(a + [""]) == FirstLetters(a);
    FirstLettersAppend(a, b);
  }

  /** The avatar text: `??` without a name, otherwise the first letters of
      the space-separated words, cut to two and upper-cased. */
  function Initials(name: Option<string>): (r: string)
    ensures !Truthy(name) ==> r == "??"
    ensures Truthy(name) ==>
      var letters := FirstLetters(Split(name.value));
      |r| == (if |letters| < 2 then |letters| else 2)
      && forall i :: 0 <= i < |r| ==> r[i] == UpperChar(letters[i])
  {
    if !Truthy(name) then "??"
    else Upper(Slice(FirstLetters(Split(name.value)), 0, 2))
  }

  /** Every letter of the initials is the upper-cased first letter of a
      non-empty word of the name, and never a space. */
  lemma InitialsComeFromWords(name: string, i: nat)
    requires name != [] && i < |Initials(Some(name))|
    ensures exists k :: (0 <= k < |Split(name)| && Split(name)[k] != []
      && Initials(Some(name))[i] == UpperChar(Split(name)[k][0]))
    ensures Initials(Some(name))[i] != ' '
  {
    var parts := Split(name);
    var k := LetterSource(parts, i);
    assert parts[k][0] in parts[k];
  }

  /** Where letter `i` of `FirstLetters(parts)` comes from. */
  lemma {:induction false} LetterSource(parts: seq<string>, i: nat) returns (k: nat)
    requires i < |FirstLetters(parts)|
    ensures k < |parts| && parts[k] != [] && FirstLetters(parts)[i] == parts[k][0]
    decreases |parts|
  {
    var tail := FirstLetters(parts[1..]);
    if parts[0] == [] {
      k := LetterSource(parts[1..], i);
      k := k + 1;
    } else if i == 0 {
      k := 0;
    } else {
      k := LetterSource(parts[1..], i - 1);
      k := k + 1;
    }
  }

  /** A first name and a last name give their two upper-cased first letters. */
  lemma InitialsOfTwoWords(first: string, last: string)
    requires first != [] && last != [] && ' ' !in first && ' ' !in last
    ensures Initials(Some(first + " " + last)) == [UpperChar(first[0]), UpperChar(last[0])]
  {
    SplitWord(first, last);
    SplitNoSpace(last);
    assert Split(first + " " + last) == [first, last];
    var letters := FirstLetters([first, last]);
    assert letters == [first[0], last[0]];
    assert Slice(letters, 0, 2) == letters;
  }

  /** Two leading words without spaces split off as two pieces. */
  lemma SplitTwoWords(first: string, second: string, rest: string)
    requires ' ' !in first && ' ' !in second
    ensures Split(first + " " + second + " " + rest) == [first, second] + Split(rest)
  {
    assert first + " " + second + " " + rest == first + " " + (second + " " + rest);
    SplitWord(first, second + " " + rest);
    SplitWord(second, rest);
  }

  /** Two non-empty leading pieces give their first letters first. */
  lemma LettersOfTwoPieces(first: string, second: string, tail: seq<string>)
    requires first != [] && second != []
    ensures FirstLetters([first, second] + tail) == [first[0], second[0]] + FirstLetters(tail)
  {
    FirstLettersAppend([first, second], tail);
    assert FirstLetters([first, second]) == [first[0], second[0]];
  }

  /** Only the first two words count: a longer name gives the initials of
      its first two words. */
  lemma InitialsKeepFirstTwoWords(first: string, second: string, rest: string)
    requires first != [] && second != [] && ' ' !in first && ' ' !in second
    ensures Initials(Some(first + " " + second + " " + rest)) == [UpperChar(first[0]), UpperChar(second[0])]
  {
    SplitTwoWords(first, second, rest);
    LettersOfTwoPieces(first, second, Split(rest));
    var letters := FirstLetters(Split(first + " " + second + " " + rest));
    assert Slice(letters, 0, 2) == [first[0], second[0]];
  }

  /** Spaces before the name change nothing. */
  lemma LeadingSpaceIgnored(name: string)
    requires name != []
    ensures Initials(Some(" " + name)) == Initials(Some(name))
  {
    var parts := Split(name);
    assert (" " + name)[0] == ' ' && (" " + name)[1..] == name;
    assert Split(" " + name) == [""] + parts;
    assert ([""] + parts)[1..] == parts;
    assert FirstLetters([""] + parts) == FirstLetters(parts);
  }

  // ----- badges -----

  /** `w` occurs in `s` starting at position `i`. */
  predicate OccursAt(s: string, w: string, i: int)
  {
    0 <= i && i + |w| <= |s| && s[i..i + |w|] == w
  }

  /** An occurrence after the first position is an occurrence in the tail,
      one position earlier, and the other way round. */
  lemma OccursInTail(s: string, w: string)
    requires s != []
    ensures forall i :: i >= 1 && OccursAt(s, w, i) ==> OccursAt(s[1..], w, i - 1)
    ensures forall i :: OccursAt(s[1..], w, i) ==> OccursAt(s, w, i + 1)
  {
    forall i | i >= 1 && OccursAt(s, w, i) ensures OccursAt(s[1..], w, i - 1) {
      assert s[1..][i - 1..i - 1 + |w|] == s[i..i + |w|];
    }
    forall i | OccursAt(s[1..], w, i) ensures OccursAt(s, w, i + 1) {
      assert s[1..][i..i + |w|] == s[i + 1..i + 1 + |w|];
    }
  }

  /** `upper.includes(w)`, as a scan. */
  function Includes(s: string, w: string): (b: bool)
    ensures b <==> exists i :: OccursAt(s, w, i)
    decreases |s|
  {
    if |s| < |w| then false
    else if s[..|w|] == w then assert OccursAt(s, w, 0); true
    else
      var b := Includes(s[1..], w);
      OccursInTail(s, w);
      assert !OccursAt(s, w, 0);
      b
  }

  /** The colour family of a tier badge. */
  datatype TierTone = Gray | Amber | Sky | Purple | Orange

  datatype TierBadgeView = TierBadgeView(text: string, tone: TierTone)

  /** `TierBadge`: `STANDARD` in grey without a tier; otherwise the tier
      upper-cased, coloured by the first of GOLD, SILVER, PREMIUM and BRONZE
      it contains. */
  function TierBadge(tier: Option<string>): (v: TierBadgeView)
    ensures !Truthy(tier) ==> v == TierBadgeView("STANDARD", Gray)
    ensures Truthy(tier) ==> v.text == Upper(tier.value)
    ensures Truthy(tier) ==>
      var u := Upper(tier.value);
      (v.tone == Amber <==> Includes(u, "GOLD"))
      && (v.tone == Sky <==> !Includes(u, "GOLD") && Includes(u, "SILVER"))
      && (v.tone == Purple <==> !Includes(u, "GOLD") && !Includes(u, "SILVER") && Includes(u, "PREMIUM"))
      && (v.tone == Orange <==> !Includes(u, "GOLD") && !Includes(u, "SILVER") && !Includes(u, "PREMIUM") && Includes(u, "BRONZE"))
  {
    if !Truthy(tier) then TierBadgeView("STANDARD", Gray)
    else
      var u := Upper(tier.value);
      var tone :=
        if Includes(u, "GOLD") then Amber
        else if Includes(u, "SILVER") then Sky
        else if Includes(u, "PREMIUM") then Purple
        else if Includes(u, "BRONZE") then Orange
        else Gray;
      TierBadgeView(u, tone)
  }

  /** The colour family of an order-status badge. */
  datatype StatusTone = PendingTone | ConfirmedTone | CanceledTone | RejectedTone | DefaultTone

  datatype StatusBadgeView = StatusBadgeView(text: string, tone: StatusTone)

  /** `OrderStatusBadge`: the French label of a known status, an unknown
      status as written, and `Inconnu` when there is none. */
  function OrderStatusBadge(status: Option<string>): (v: StatusBadgeView)
    ensures status == Some("PENDING") <==> v == StatusBadgeView("En attente", PendingTone)
    ensures status == Some("CONFIRMED") <==> v == StatusBadgeView("Confirmée", ConfirmedTone)
    ensures status == Some("CANCELED") <==> v == StatusBadgeView("Annulée", CanceledTone)
    ensures status == Some("REJECTED") <==> v == StatusBadgeView("Rejetée", RejectedTone)
    ensures v.tone == DefaultTone <==> status !in {Some("PENDING"), Some("CONFIRMED"), Some("CANCELED"), Some("REJECTED")}
    ensures v.tone == DefaultTone ==> v.text == Or(status, "Inconnu")
    ensures v.text != []
  {
    match status
    case Some("PENDING") => StatusBadgeView("En attente", PendingTone)
    case Some("CONFIRMED") => StatusBadgeView("Confirmée", ConfirmedTone)
    case Some("CANCELED") => StatusBadgeView("Annulée", CanceledTone)
    case Some("REJECTED") => StatusBadgeView("Rejetée", RejectedTone)
    case _ => StatusBadgeView(Or(status, "Inconnu"), DefaultTone)
  }

  // ----- totals -----

  /** `client?.totalOrders ?? orders.length`. */
  function TotalOrders(client: Option<Client>, orders: seq<Order>): (n: int)
    ensures client.Some? && client.value.totalOrders.Some? ==> n == client.value.totalOrders.value
    ensures client.None? || client.value.totalOrders.None? ==> n == |orders|
  {
    if client.Some? && client.value.totalOrders.Some? then client.value.totalOrders.value else |orders|
  }

  // ----- the e-mail rule -----

  /** One `[^\s@]+` run of the address pattern. */
  predicate Segment(p: string)
  {
    p != [] && forall i :: 0 <= i < |p| ==> !IsSpace(p[i]) && p[i] != '@'
  }

  /** `/^[^\s@]+@[^\s@]+\.[^\s@]+$/`, as the pattern reads. */
  ghost predicate EmailPattern(s: string)
  {
    exists a, b, c :: s == a + "@" + b + "." + c && Segment(a) && Segment(b) && Segment(c)
  }

  predicate NoSpace(s: string)
  {
    forall i :: 0 <= i < |s| ==> !IsSpace(s[i])
  }

  /** The pattern checked by position: no white space, a single '@' that is
      not first, and a '.' after it that is neither the first nor the last
      character of the domain. */
  predicate IsEmail(s: string)
  {
    NoSpace(s)
    && match IndexOf(s, '@')
       case None => false
       case Some(i) =>
         var d := s[i + 1..];
         i > 0 && '@' !in d && |d| >= 3 && '.' in d[1..|d| - 1]
  }

  /** A stretch of `s` free of white space and '@' is a segment. */
  lemma SegmentOfSlice(s: string, lo: int, hi: int)
    requires 0 <= lo < hi <= |s|
    requires forall j :: lo <= j < hi ==> !IsSpace(s[j]) && s[j] != '@'
    ensures Segment(s[lo..hi])
  {
    forall j | 0 <= j < hi - lo ensures !IsSpace(s[lo..hi][j]) && s[lo..hi][j] != '@' {
      assert s[lo..hi][j] == s[lo + j];
    }
  }

  /** Around its only '@', an address without white space holds neither
      white space nor another '@'. */
  lemma OnlyAt(s: string, i: nat)
    requires NoSpace(s) && i < |s| && '@' !in s[..i] && '@' !in s[i + 1..]
    ensures forall j :: 0 <= j < |s| && j != i ==> !IsSpace(s[j]) && s[j] != '@'
  {
    forall j | 0 <= j < |s| && j != i ensures !IsSpace(s[j]) && s[j] != '@' {
      if j < i {
        assert s[j] == s[..i][j];
      } else {
        assert s[j] == s[i + 1..][j - i - 1];
      }
    }
  }

  /** The '.' the positional check finds in the domain, as a position of
      the whole address. */
  lemma DotInDomain(s: string, i: nat) returns (dot: nat)
    requires IsEmail(s) && IndexOf(s, '@') == Some(i)
    ensures i + 1 < dot < |s| - 1 && s[dot] == '.'
  {
    var d := s[i + 1..];
    var m := d[1..|d| - 1];
    var k := IndexOf(m, '.').value + 1;
    assert d[k] == m[k - 1];
    dot := i + 1 + k;
    assert s[dot] == d[k];
  }

  /** Cutting a text at two positions and putting the pieces back. */
  lemma CutTwice(s: string, i: nat, j: nat)
    requires i < j < |s|
    ensures s == s[..i] + [s[i]] + s[i + 1..j] + [s[j]] + s[j + 1..]
  {
    assert s[i..] == [s[i]] + s[i + 1..];
    assert s[i + 1..] == s[i + 1..j] + s[j..];
    assert s[j..] == [s[j]] + s[j + 1..];
    assert s == s[..i] + s[i..];
  }

  /** An address the positional check accepts matches the pattern. */
  lemma EmailCheckSound(s: string)
    requires IsEmail(s)
    ensures EmailPattern(s)
  {
    var i := IndexOf(s, '@').value;
    var dot := DotInDomain(s, i);
    OnlyAt(s, i);
    SegmentOfSlice(s, 0, i);
    SegmentOfSlice(s, i + 1, dot);
    SegmentOfSlice(s, dot + 1, |s|);
    CutTwice(s, i, dot);
    var a, b, c := s[..i], s[i + 1..dot], s[dot + 1..];
    assert s == a + "@" + b + "." + c && Segment(a) && Segment(b) && Segment(c);
  }

  /** A segment holds neither white space nor '@'. */
  lemma SegmentClean(p: string)
    requires Segment(p)
    ensures NoSpace(p) && '@' !in p
  {
    forall j | 0 <= j < |p| ensures p[j] != '@' { }
  }

  /** Two texts without white space joined have none. */
  lemma NoSpaceJoin(x: string, y: string)
    requires NoSpace(x) && NoSpace(y)
    ensures NoSpace(x + y)
  {
    forall j | 0 <= j < |x + y| ensures !IsSpace((x + y)[j]) {
      if j >= |x| { assert (x + y)[j] == y[j - |x|]; }
    }
  }

  /** The first '@' of `a + "@" + rest`, when `a` has none, is the one
      after `a`. */
  lemma FirstAt(s: string, a: string, rest: string)
    requires s == a + "@" + rest && '@' !in a
    ensures IndexOf(s, '@') == Some(|a|) && s[|a| + 1..] == rest
  {
    assert s[|a|] == '@';
    assert s[..|a|] == a;
    assert s[|a| + 1..] == rest;
  }

  /** An address that matches the pattern passes the positional check. */
  lemma EmailCheckComplete(s: string, a: string, b: string, c: string)
    requires s == a + "@" + b + "." + c && Segment(a) && Segment(b) && Segment(c)
    ensures IsEmail(s)
  {
    SegmentClean(a);
    SegmentClean(b);
    SegmentClean(c);
    var d := b + "." + c;
    assert s == a + "@" + d;
    FirstAt(s, a, d);
    assert '@' !in d;
    assert d[1..|d| - 1][|b| - 1] == '.';
    NoSpaceJoin(b, ".");
    NoSpaceJoin(b + ".", c);
    NoSpaceJoin(a, "@");
    NoSpaceJoin(a + "@", d);
  }

  /** The positional check and the pattern accept the same addresses. */
  lemma EmailCheckMatchesPattern(s: string)
    ensures IsEmail(s) <==> EmailPattern(s)
  {
    if IsEmail(s) {
      EmailCheckSound(s);
    }
    if EmailPattern(s) {
      var a, b, c :| s == a + "@" + b + "." + c && Segment(a) && Segment(b) && Segment(c);
      EmailCheckComplete(s, a, b, c);
    }
  }

  // ----- the edit form -----

  datatype ClientFields = ClientFields(name: string, email: string, phone: string, address: string)

  datatype ClientErrors = ClientErrors(
    name: Option<string>,
    email: Option<string>,
    phone: Option<string>,
    address: Option<string>)

  const NO_ERRORS := ClientErrors(None, None, None, None)

  /** The first broken rule of each field: `required` first, then the
      length or pattern rule, which only applies to a non-empty value. */
  function FieldErrors(f: ClientFields): (e: ClientErrors)
    ensures e.name.Some? <==> f.name == ""
    ensures e.name.Some? ==> e.name.value == NAME_REQUIRED
    ensures e.email.Some? <==> !IsEmail(f.email)
    ensures e.email.Some? ==> e.email.value == (if f.email == "" then EMAIL_REQUIRED else EMAIL_FORMAT)
    ensures e.phone.Some? <==> |f.phone| < PHONE_MIN_LENGTH
    ensures e.phone.Some? ==> e.phone.value == (if f.phone == "" then PHONE_REQUIRED else PHONE_TOO_SHORT)
    ensures e.address.Some? <==> f.address == ""
    ensures e.address.Some? ==> e.address.value == ADDRESS_REQUIRED
  {
    ClientErrors(
      if f.name == "" then Some(NAME_REQUIRED) else None,
      if f.email == "" then Some(EMAIL_REQUIRED) else if !IsEmail(f.email) then Some(EMAIL_FORMAT) else None,
      if f.phone == "" then Some(PHONE_REQUIRED) else if |f.phone| < PHONE_MIN_LENGTH then Some(PHONE_TOO_SHORT) else None,
      if f.address == "" then Some(ADDRESS_REQUIRED) else None)
  }

  /** The form is sent exactly when every field is filled in, the e-mail
      matches the address pattern and the phone has at least six characters. */
  lemma FormAcceptedIff(f: ClientFields)
    ensures FieldErrors(f) == NO_ERRORS <==>
      f.name != "" && EmailPattern(f.email) && |f.phone| >= PHONE_MIN_LENGTH && f.address != ""
  {
    EmailCheckMatchesPattern(f.email);
    if EmailPattern(f.email) {
      assert f.email != "";
    }
  }

  /** The form values taken from a client: `field || ''`. */
  function Prefill(c: Client): (f: ClientFields)
    ensures f.name == Or(c.name, "") && f.email == Or(c.email, "")
    ensures f.phone == Or(c.phone, "") && f.address == Or(c.address, "")
  {
    ClientFields(Or(c.name, ""), Or(c.email, ""), Or(c.phone, ""), Or(c.address, ""))
  }

  class ClientDetail {
    var client: Option<Client>
    var orders: seq<Order>
    var error: Option<string>
    var isEditing: bool
    var backendError: Option<string>
    var form: ClientFields
    var formErrors: ClientErrors

    constructor ()
      ensures client == None && orders == [] && error == None
      ensures !isEditing && backendError == None
      ensures form == ClientFields("", "", "", "") && formErrors == NO_ERRORS
    {
      client, orders, error := None, [], None;
      isEditing, backendError := false, None;
      form, formErrors := ClientFields("", "", "", ""), NO_ERRORS;
    }

    /** `fetchClient`: a loaded client is shown and copied into the form; a
        failure shows the loading message and keeps what was there. A null
        body is stored, and reading its name for the form then throws, so
        the page ends with no client and the loading message. */
    method LoadClient(response: Outcome<Option<Client>>)
      modifies this
      ensures response.Ok? && response.value.Some? ==>
        client == response.value && form == Prefill(response.value.value) && error == None
        && formErrors == NO_ERRORS
      ensures response.Ok? && response.value.None? ==>
        client == None && form == old(form) && formErrors == old(formErrors) && error == Some(LOAD_FAILED)
      ensures response.Err? ==>
        client == old(client) && form == old(form) && formErrors == old(formErrors) && error == Some(LOAD_FAILED)
      ensures orders == old(orders) && isEditing == old(isEditing) && backendError == old(backendError)
    {
      error := None;
      match response {
        case Ok(data) =>
          client := data;
          if data.Some? {
            form, formErrors := Prefill(data.value), NO_ERRORS;
          } else {
            error := Some(LOAD_FAILED);
          }
        case Err(_) =>
          error := Some(LOAD_FAILED);
      }
    }

    /** `fetchOrders`: a list body replaces the orders, anything else empties
        them, and a failure changes nothing. */
    method LoadOrders(response: Outcome<ListBody<Order>>)
      modifies this
      ensures response.Ok? ==> orders == ArrayOrEmpty(response.value)
      ensures response.Err? ==> orders == old(orders)
      ensures client == old(client) && error == old(error) && form == old(form)
      ensures isEditing == old(isEditing) && backendError == old(backendError) && formErrors == old(formErrors)
    {
      if response.Ok? {
        orders := ArrayOrEmpty(response.value);
      }
    }

    /** The "Modifier"/"Annuler" button at the top: flips edit mode, clears
        the update error and, when a client is loaded, resets the form to it. */
    method ToggleEdit()
      modifies this
      ensures isEditing == !old(isEditing) && backendError == None
      ensures client.Some? ==> form == Prefill(client.value) && formErrors == NO_ERRORS
      ensures client.None? ==> form == old(form) && formErrors == old(formErrors)
      ensures client == old(client) && orders == old(orders) && error == old(error)
    {
      isEditing := !isEditing;
      backendError := None;
      if client.Some? {
        form, formErrors := Prefill(client.value), NO_ERRORS;
      }
    }

    /** The form's own "Annuler" button. */
    method Cancel()
      modifies this
      ensures !isEditing && backendError == None
      ensures client == old(client) && orders == old(orders) && error == old(error)
      ensures form == old(form) && formErrors == old(formErrors)
    {
      isEditing := false;
      backendError := None;
    }

    /** `handleSubmit(onSubmit)`: the field rules first; only a valid form
        reaches `onSubmit`, which replaces the client and leaves edit mode on
        success, and otherwise shows the backend message or the default. */
    method Submit(update: Outcome<Client>) returns (sent: Option<ClientFields>)
      modifies this
      ensures formErrors == FieldErrors(old(form))
      ensures sent.Some? <==> FieldErrors(old(form)) == NO_ERRORS
      ensures sent.Some? ==> sent.value == old(form)
      ensures sent.None? ==> client == old(client) && isEditing == old(isEditing) && backendError == old(backendError)
      ensures sent.Some? && update.Ok? ==> client == Some(update.value) && !isEditing && backendError == None
      ensures sent.Some? && update.Err? ==>
        client == old(client) && isEditing == old(isEditing)
        && backendError == Some(Or(update.error.backendMessage, UPDATE_FAILED))
      ensures form == old(form) && orders == old(orders) && error == old(error)
    {
      formErrors := FieldErrors(form);
      if formErrors != NO_ERRORS {
        return None;
      }
      sent := Some(form);
      backendError := None;
      match update {
        case Ok(updated) =>
          client := Some(updated);
          isEditing := false;
        case Err(e) =>
          backendError := Some(Or(e.backendMessage, UPDATE_FAILED));
      }
    }
  }
}
