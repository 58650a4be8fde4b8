/**
 * The one-shot credential disclosure of the accounts app.
 *
 * A bank account sends its owner a single email carrying the IBAN, a freshly
 * generated PIN and, when the account has an active card, the details of its
 * most recently issued active card, including the real CVV. The account is then
 * marked as served and the card's real PAN and CVV are erased. Two save
 * handlers — account created, card created — are the only ways in.
 *
 * The email transport is an append-only ghost log per account (`outbox`); the
 * text and HTML bodies are represented by the context they are rendered from.
 */
module Signals {
  import opened Wrappers
  import opened Utils
  import opened Secrets

  /** The PIN length both handlers ask `generate_pin` for. */
  const PinLength: nat := 6

  const Subject: string := "Credenziali conto FinHub (IBAN, PIN e dati carta)"

  /** Python truthiness of a nullable text field: neither None nor empty. */
  predicate Filled(s: Option<string>) {
    s.Some? && s.value != ""
  }

  /** What `set_pin` stores: an encoding of the raw PIN, never empty. */
  type EncodedPin = s: string | s != "" witness "!"

  /** The owner of an account; only read here. */
  datatype User = User(fullName: string, email: string)

  /** The value of a card's fields at one moment. */
  datatype CardData = CardData(
    active: bool,
    issuedAt: int,
    circuit: string,
    panLast4: string,
    expiryMonth: int,
    expiryYear: int,
    cvvReal: Option<string>,
    panReal: Option<string>)

  /** The mapping both email templates are rendered from. */
  datatype Context = Context(
    userName: string,
    iban: string,
    pin: Option<string>,
    cardBrand: Option<string>,
    cardLast4: Option<string>,
    expiryMonth: Option<int>,
    expiryYear: Option<int>,
    cvvReal: Option<string>)

  /** One email handed to the transport. */
  datatype Email = Email(subject: string, to: seq<string>, context: Context)

  /** `full_name` when it is non-empty, the email address otherwise. */
  function DisplayName(u: User): string {
    if u.fullName != "" then u.fullName else u.email
  }

  /**
   * The context a disclosure renders, given the raw PIN it generated and the
   * card it selected (if any).
   */
  function DisclosureContext(u: User, iban: string, rawPin: string, card: Option<CardData>): (ctx: Context)
    ensures u.fullName != "" ==> ctx.userName == u.fullName
    ensures u.fullName == "" ==> ctx.userName == u.email
    ensures ctx.iban == iban && ctx.pin == Some(rawPin)
    ensures card.None? ==>
      ctx.cardBrand.None? && ctx.cardLast4.None? && ctx.expiryMonth.None? &&
      ctx.expiryYear.None? && ctx.cvvReal.None?
    ensures card.Some? ==>
      ctx.cardBrand == Some(card.value.circuit) && ctx.cardLast4 == Some(card.value.panLast4) &&
      ctx.expiryMonth == Some(card.value.expiryMonth) && ctx.expiryYear == Some(card.value.expiryYear)
    ensures ctx.cvvReal.Some? <==> card.Some? && Filled(card.value.cvvReal)
    ensures ctx.cvvReal.Some? ==> ctx.cvvReal == card.value.cvvReal
  {
    match card
    case None => Context(DisplayName(u), iban, Some(rawPin), None, None, None, None, None)
    case Some(c) =>
      Context(DisplayName(u), iban, Some(rawPin), Some(c.circuit), Some(c.panLast4),
              Some(c.expiryMonth), Some(c.expiryYear), if Filled(c.cvvReal) then c.cvvReal else None)
  }

  /**
   * A disclosed card after the erasure step: when it held a real CVV or PAN both
   * are cleared, otherwise it is left as it was.
   */
  function Scrub(d: CardData): (e: CardData)
    ensures !Filled(e.cvvReal) && !Filled(e.panReal)
    ensures (Filled(d.cvvReal) || Filled(d.panReal)) ==> e.cvvReal.None? && e.panReal.None?
    ensures !(Filled(d.cvvReal) || Filled(d.panReal)) ==> e == d
    ensures e.(cvvReal := d.cvvReal, panReal := d.panReal) == d
  {
    if Filled(d.cvvReal) || Filled(d.panReal) then d.(cvvReal := None, panReal := None) else d
  }

  /**
   * A save of an account or of a card belonging to it, as the persistence layer
   * reports it: the record and whether the save created it.
   */
  datatype Event = AccountSaved(created: bool) | CardSaved(card: Card, created: bool)

  function EventCards(events: seq<Event>): set<Card> {
    set i | 0 <= i < |events| && events[i].CardSaved? :: events[i].card
  }

  /**
   * The card a disclosure uses among `cards`: an active card with the latest
   * issue time, or none when no card is active. Which of several equally recent
   * cards is meant is left open.
   */
  predicate IsDisclosureCard(cards: seq<Card>, pick: Option<Card>) {
    match pick
    case None => forall c | c in cards :: !c.active
    case Some(c) => c in cards && c.active && forall d | d in cards && d.active :: d.issuedAt <= c.issuedAt
  }

  class Card {
    const account: Account
    const active: bool
    const issuedAt: int
    const circuit: string
    const panLast4: string
    const expiryMonth: int
    const expiryYear: int
    /** The real secrets, kept only until the card is disclosed. */
    var cvvReal: Option<string>
    var panReal: Option<string>

    constructor (account: Account, active: bool, issuedAt: int, circuit: string, panLast4: string,
                 expiryMonth: int, expiryYear: int, cvvReal: Option<string>, panReal: Option<string>)
      ensures this.account == account
      ensures Data() == CardData(active, issuedAt, circuit, panLast4, expiryMonth, expiryYear, cvvReal, panReal)
    {
      this.account := account;
      this.active := active;
      this.issuedAt := issuedAt;
      this.circuit := circuit;
      this.panLast4 := panLast4;
      this.expiryMonth := expiryMonth;
      this.expiryYear := expiryYear;
      this.cvvReal := cvvReal;
      this.panReal := panReal;
    }

    function Data(): CardData
      reads this
    {
      CardData(active, issuedAt, circuit, panLast4, expiryMonth, expiryYear, cvvReal, panReal)
    }

    /** The erasure of the real secrets once they have been disclosed. */
    method ClearSecrets()
      modifies this
      ensures cvvReal.None? && panReal.None?
    {
      cvvReal := None;
      panReal := None;
    }

    /**
     * `card_created_try_notify`: on the creation of a card whose account has not
     * been served yet, disclose that account's credentials; otherwise do nothing.
     */
    method CreatedTryNotify(created: bool, rng: RandomSource)
      returns (ghost chosen: Option<Card>, ghost before: Option<CardData>, ghost rawPin: string)
      requires account.Valid()
      modifies account, account.cards, rng
      ensures account.Valid() && account.cards == old(account.cards)
      ensures !(created && !old(account.credentialsSent)) ==>
        && chosen == None
        && account.credentialsSent == old(account.credentialsSent)
        && account.pin == old(account.pin)
        && account.outbox == old(account.outbox)
        && unchanged(rng)
      ensures created && !old(account.credentialsSent) ==>
        && IsDisclosureCard(account.cards, chosen)
        && (chosen.Some? <==> before.Some?)
        && (chosen.Some? ==> before.value == old(chosen.value.Data()) && chosen.value.Data() == Scrub(before.value))
        && rng.issued == old(rng.issued) + [rawPin]
        && |rawPin| == PinLength && IsDigitString(rawPin)
        && account.DisclosureRecorded(old(account.outbox), rawPin, before)
      ensures forall c | c in account.cards && Some(c) != chosen ::
        c.cvvReal == old(c.cvvReal) && c.panReal == old(c.panReal)
    {
      chosen, before, rawPin := None, None, "";
      if created && !account.credentialsSent {
        chosen, before, rawPin := account.TrySendCredentials(rng);
      }
    }
  }

  class Account {
    const user: User
    const iban: string
    /** `set_pin`'s encoding of a raw PIN; nothing is assumed about it. */
    const encode: string -> EncodedPin
    var pin: Option<string>
    var credentialsSent: bool
    /** The account's cards, as the reverse relation of `Card.account` lists them. */
    var cards: seq<Card>
    /** Every email this account's disclosure has handed to the transport. */
    ghost var outbox: seq<Email>

    /** Its cards belong to it, and it has sent at most one email, none while unserved. */
    ghost predicate Valid()
      reads this
    {
      && (forall c | c in cards :: c.account == this)
      && |outbox| <= 1
      && (!credentialsSent ==> outbox == [])
    }

    constructor (user: User, iban: string, pin: Option<string>, encode: string -> EncodedPin)
      ensures Valid()
      ensures this.user == user && this.iban == iban && this.pin == pin && this.encode == encode
      ensures !credentialsSent && cards == [] && outbox == []
    {
      this.user := user;
      this.iban := iban;
      this.encode := encode;
      this.pin := pin;
      credentialsSent := false;
      cards := [];
      outbox := [];
    }

    /** The persistence layer storing a new card of this account. */
    method Attach(card: Card)
      requires Valid() && card.account == this
      modifies this`cards
      ensures Valid()
      ensures cards == if card in old(cards) then old(cards) else old(cards) + [card]
    {
      if card !in cards {
        cards := cards + [card];
      }
    }

    /** `cards.filter(active=True).order_by('-issued_at').first()`. */
    method SelectDisclosureCard() returns (pick: Option<Card>)
      ensures IsDisclosureCard(cards, pick)
    {
      pick := None;
      for i := 0 to |cards|
        invariant pick.None? ==> forall j | 0 <= j < i :: !cards[j].active
        invariant pick.Some? ==> pick.value in cards && pick.value.active
        invariant pick.Some? ==> forall j | 0 <= j < i && cards[j].active :: cards[j].issuedAt <= pick.value.issuedAt
      {
        var c := cards[i];
        if c.active && (pick.None? || c.issuedAt > pick.value.issuedAt) {
          pick := Some(c);
        }
      }
    }

    /** `generate_pin(6)` followed by `set_pin` and the save of the PIN. */
    method SetNewPin(rng: RandomSource) returns (raw: string)
      modifies this`pin, rng
      ensures rng.issued == old(rng.issued) + [raw]
      ensures |raw| == PinLength && IsDigitString(raw)
      ensures pin == Some(encode(raw))
    {
      raw := rng.NextPin(PinLength);
      pin := Some(encode(raw));
    }

    /** The account handler's first step: a PIN is generated and set only when none is set. */
    method EnsurePin(rng: RandomSource)
      modifies this`pin, rng
      ensures Filled(pin)
      ensures Filled(old(pin)) ==> pin == old(pin) && unchanged(rng)
      ensures !Filled(old(pin)) ==>
        |rng.issued| == |old(rng.issued)| + 1 && rng.issued[..|old(rng.issued)|] == old(rng.issued) &&
        pin == Some(encode(rng.issued[|old(rng.issued)|]))
    {
      if !Filled(pin) {
        var raw := SetNewPin(rng);
        assert rng.issued[|old(rng.issued)|] == raw;
      }
    }

    /**
     * The state a disclosure leaves: the account is served, the encoding of the
     * raw PIN is stored, and exactly one email to the owner, rendered from the
     * disclosure context, has been added to the earlier outbox.
     */
    ghost predicate DisclosureRecorded(outbox0: seq<Email>, rawPin: string, before: Option<CardData>)
      reads this
    {
      && credentialsSent
      && pin == Some(encode(rawPin))
      && outbox == outbox0 + [Email(Subject, [user.email], DisclosureContext(user, iban, rawPin, before))]
    }

    /**
     * `try_send_credentials`. On a served account nothing happens. Otherwise a
     * card is selected, a fresh PIN is generated and stored (whether or not a PIN
     * was already set), the email is sent (delivery failures are silent), the
     * account is marked served and the selected card's real PAN and CVV are erased
     * if it held either. `chosen`, `before` and `rawPin` name the selected card,
     * its fields before erasure and the generated PIN.
     */
    method TrySendCredentials(rng: RandomSource)
      returns (ghost chosen: Option<Card>, ghost before: Option<CardData>, ghost rawPin: string)
      requires Valid()
      modifies this, cards, rng
      ensures Valid() && cards == old(cards)
      ensures old(credentialsSent) ==>
        && chosen == None
        && credentialsSent
        && pin == old(pin)
        && outbox == old(outbox)
        && unchanged(rng)
      ensures !old(credentialsSent) ==>
        && IsDisclosureCard(cards, chosen)
        && (chosen.Some? <==> before.Some?)
        && (chosen.Some? ==> before.value == old(chosen.value.Data()) && chosen.value.Data() == Scrub(before.value))
        && rng.issued == old(rng.issued) + [rawPin]
        && |rawPin| == PinLength && IsDigitString(rawPin)
        && DisclosureRecorded(old(outbox), rawPin, before)
      ensures forall c | c in cards && Some(c) != chosen ::
        c.cvvReal == old(c.cvvReal) && c.panReal == old(c.panReal)
    {
      chosen, before, rawPin := None, None, "";
      if credentialsSent {
        return;
      }

      var card := SelectDisclosureCard();
      chosen := card;

      var context := Context(DisplayName(user), iban, None, None, None, None, None, None);

      // Both branches rotate the PIN, exactly as the handler is written.
      if !Filled(pin) {
        var raw := SetNewPin(rng);
        context := context.(pin := Some(raw));
        rawPin := raw;
      } else {
        var raw := SetNewPin(rng);
        context := context.(pin := Some(raw));
        rawPin := raw;
      }

      if card.Some? {
        var c := card.value;
        before := Some(c.Data());
        context := context.(cardBrand := Some(c.circuit), cardLast4 := Some(c.panLast4),
                            expiryMonth := Some(c.expiryMonth), expiryYear := Some(c.expiryYear));
        if Filled(c.cvvReal) {
          context := context.(cvvReal := c.cvvReal);
        }
      }

      outbox := outbox + [Email(Subject, [user.email], context)];

      credentialsSent := true;

      if card.Some? && (Filled(card.value.cvvReal) || Filled(card.value.panReal)) {
        card.value.ClearSecrets();
      }
    }

    /**
     * `bankaccount_created_set_pin_and_notify`: on creation, set a PIN if none is
     * set and then try the disclosure; saves that do not create do nothing.
     */
    method CreatedSetPinAndNotify(created: bool, rng: RandomSource)
      returns (ghost chosen: Option<Card>, ghost before: Option<CardData>, ghost rawPin: string)
      requires Valid()
      modifies this, cards, rng
      ensures Valid() && cards == old(cards)
      ensures !created ==>
        && chosen == None
        && credentialsSent == old(credentialsSent)
        && pin == old(pin)
        && outbox == old(outbox)
        && unchanged(rng)
      ensures created ==> credentialsSent && Filled(pin)
      ensures created && old(credentialsSent) ==>
        && chosen == None
        && outbox == old(outbox)
        && (Filled(old(pin)) ==> pin == old(pin) && unchanged(rng))
        && (!Filled(old(pin)) ==>
              |rng.issued| == |old(rng.issued)| + 1 && rng.issued[..|old(rng.issued)|] == old(rng.issued) &&
              pin == Some(encode(rng.issued[|old(rng.issued)|])))
      ensures created && !old(credentialsSent) ==>
        && IsDisclosureCard(cards, chosen)
        && (chosen.Some? <==> before.Some?)
        && (chosen.Some? ==> before.value == old(chosen.value.Data()) && chosen.value.Data() == Scrub(before.value))
        && |rawPin| == PinLength && IsDigitString(rawPin)
        && |rng.issued| == |old(rng.issued)| + (if Filled(old(pin)) then 1 else 2)
        && rng.issued[..|old(rng.issued)|] == old(rng.issued)
        && rng.issued[|rng.issued| - 1] == rawPin
        && DisclosureRecorded(old(outbox), rawPin, before)
      ensures forall c | c in cards && Some(c) != chosen ::
        c.cvvReal == old(c.cvvReal) && c.panReal == old(c.panReal)
    {
      chosen, before, rawPin := None, None, "";
      if created {
        EnsurePin(rng);
        chosen, before, rawPin := TrySendCredentials(rng);
      }
    }

    /**
     * Any sequence of saves of this account and of its cards, each followed by
     * its handler. The flag never goes back to false, the outbox only grows, and
     * at most one email is ever sent: exactly one once an unserved account is
     * served, which any creating save of the account or of one of its cards
     * brings about.
     */
    method Replay(events: seq<Event>, rng: RandomSource)
      requires Valid()
      requires forall i | 0 <= i < |events| && events[i].CardSaved? :: events[i].card.account == this
      modifies this, cards, EventCards(events), rng
      ensures Valid()
      ensures old(credentialsSent) ==> credentialsSent && outbox == old(outbox)
      ensures |outbox| <= 1 && old(outbox) <= outbox
      ensures !old(credentialsSent) ==> (credentialsSent <==> |outbox| == 1)
      ensures (exists i | 0 <= i < |events| :: events[i].created) ==> credentialsSent
      ensures (forall i | 0 <= i < |events| :: !events[i].created) ==>
        credentialsSent == old(credentialsSent) && outbox == old(outbox)
    {
      for k := 0 to |events|
        invariant Valid()
        invariant forall c | c in cards :: c in old(cards) || c in EventCards(events)
        invariant old(credentialsSent) ==> credentialsSent && outbox == old(outbox)
        invariant old(outbox) <= outbox
        invariant !old(credentialsSent) ==> (credentialsSent <==> |outbox| == 1)
        invariant (exists i | 0 <= i < k :: events[i].created) ==> credentialsSent
        invariant (forall i | 0 <= i < k :: !events[i].created) ==>
          credentialsSent == old(credentialsSent) && outbox == old(outbox)
      {
        match events[k]
        case AccountSaved(created) =>
          ghost var chosen, before, rawPin := CreatedSetPinAndNotify(created, rng);
        case CardSaved(card, created) =>
          assert card in EventCards(events);
          if created && card !in cards {
            Attach(card);
          }
          ghost var chosen, before, rawPin := card.CreatedTryNotify(created, rng);
      }
    }
  }

  /**
   * Clients of the handlers; every assertion in them follows from the contracts
   * above. First the selection rule: of cards issued at times 1, 2, 3 with only
   * the first and the last active, the last is the one disclosed.
   */
  method SelectionScenario() {
    var account := new Account(User("Mario", "m@x"), "IT60X", None, (raw: string) => "enc:" + raw);
    var older := new Card(account, true, 1, "VISA", "1111", 1, 2028, Some("111"), None);
    var inactive := new Card(account, false, 2, "VISA", "2222", 2, 2029, None, None);
    var newest := new Card(account, true, 3, "MC", "3333", 12, 2030, Some("123"), None);
    account.Attach(older);
    account.Attach(inactive);
    account.Attach(newest);
    var pick := account.SelectDisclosureCard();
    assert pick == Some(newest);
  }

  /**
   * An account with a preset PIN and one card with real secrets: the PIN is
   * rotated, the real CVV is disclosed and then erased together with the PAN.
   */
  method ScrubScenario() {
    var account := new Account(User("Mario", "m@x"), "IT60X", Some("000000"), (raw: string) => "enc:" + raw);
    var rng := new RandomSource((i: nat) => 7);
    var card := new Card(account, true, 3, "MC", "1111", 12, 2030, Some("123"), Some("4111"));
    account.Attach(card);
    ghost var chosen, before, rawPin := account.CreatedSetPinAndNotify(true, rng);
    assert chosen == Some(card);
    assert card.cvvReal.None? && card.panReal.None?;
    var email := account.outbox[0];
    assert email.context.userName == "Mario" && email.context.pin == Some(rawPin);
    assert email.context.cardLast4 == Some("1111") && email.context.cvvReal == Some("123");
    assert account.pin == Some("enc:" + rawPin) && |rawPin| == 6;
  }

  /**
   * An account created without cards is served at once with no card details; a
   * card created afterwards sends nothing and keeps its secrets.
   */
  method CardAfterAccountScenario() {
    var owner := User("", "mario@example.com");
    var account := new Account(owner, "IT60X0542811101000000123456", None, (raw: string) => "enc:" + raw);
    var rng := new RandomSource((i: nat) => 0);

    ghost var chosen, before, rawPin := account.CreatedSetPinAndNotify(true, rng);
    assert account.credentialsSent && |account.outbox| == 1;
    var email := account.outbox[0];
    assert email.subject == Subject && email.to == ["mario@example.com"];
    assert email.context.userName == "mario@example.com";
    assert email.context.cardBrand.None? && email.context.cvvReal.None?;
    assert email.context.pin == Some(rawPin) && account.pin == Some("enc:" + rawPin);
    assert |rawPin| == 6 && IsDigitString(rawPin);

    var late := new Card(account, true, 4, "VISA", "4444", 6, 2031, Some("999"), Some("4000000000004444"));
    account.Attach(late);
    ghost var chosen2, before2, rawPin2 := late.CreatedTryNotify(true, rng);
    assert account.outbox == [email];
    assert late.cvvReal == Some("999");
  }
}
