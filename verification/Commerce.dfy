/** Purchases, gifts, mail attachments and instance ids on one transactional store. */
module Commerce {
  type Uid = nat
  type Op = string

  datatype Option<+T> = None | Some(value: T)

  datatype Currency = Gold | Ticket

  const PRICE_LIMIT: nat := 21474836
  const BALANCE_LIMIT: nat := 2147483647
  const INVENTORY_LIMIT: nat := 8000
  const MAILBOX_LIMIT: nat := 2048
  const INSTANCE_FLOOR: nat := 0xfffff
  const INSTANCE_LIMIT: nat := 0xffffffff
  const ATTACHMENT_FLOOR: nat := 0x200000
  const KEY_LIMIT: nat := 0x1_0000_0000

  /** A shop record as pricing reads it; `open_` is false when a rule it names is not resolved. */
  datatype Record = Record(open_: bool, gold: nat, goldNow: nat, ticket: nat, ticketNow: nat, sale: bool, rest: nat)

  /** A grant template: everything of the item but its instance; `mailable` says whether mail may carry it. */
  datatype Grant = Grant(template: nat, mailable: bool)

  datatype Item = Item(instance: nat, grant: Grant, permanent: bool)

  datatype Offer = Offer(record: Record, grant: Grant)

  datatype Request = Request(sender: Uid, buyer: Uid, key: nat, code: nat, gold: nat, ticket: nat,
                             extras: bool, rest: nat)

  datatype GiftRequest = GiftRequest(sound: bool, name: string, hint: Uid, key: nat, quote: nat, rest: nat)

  datatype Delivery = ByGift(uid: Uid, op: Op) | ByAdmin(id: string)

  datatype Purchase = Purchase(request: Request, balance: nat, item: Item, record: Record)

  datatype Gift = Gift(request: GiftRequest, recipient: Uid, mail: nat)

  datatype Mail = Mail(uid: Uid, delivery: Delivery, content: nat, grant: Option<Grant>, attachment: nat,
                       claimed: Option<nat>, deleted: bool)

  datatype Store = Store(
    names: map<Uid, string>, wallets: map<(Uid, Currency), nat>,
    inventory: map<(Uid, nat), Item>, instances: nat,
    catalog: map<nat, Record>, offers: map<nat, Offer>, permanent: set<nat>,
    purchases: map<(Uid, Op), Purchase>, gifts: map<(Uid, Op), Gift>,
    mailbox: map<nat, Mail>, mails: nat, attachments: nat)

  // ---------------------------------------------------------------- prices

  function Lesser(a: nat, b: nat): nat { if a < b then a else b }

  function CurrencyOf(r: Record): Currency { if r.gold != 0 then Gold else Ticket }

  function Base(r: Record): nat { if r.gold != 0 then r.gold else r.ticket }

  function Current(r: Record): nat { if r.gold != 0 then r.goldNow else r.ticketNow }

  function Price(r: Record, gift: bool): nat {
    if !r.sale then Base(r) else if gift then Current(r) else Lesser(Base(r), Current(r))
  }

  /** May the record be sold at all, or given away? */
  predicate Sellable(r: Record, gift: bool) {
    && r.open_ && 0 < Base(r) <= PRICE_LIMIT
    && (if r.gold != 0 then r.ticket == 0 && r.ticketNow == 0 else r.goldNow == 0)
    && 0 < Price(r, gift) <= PRICE_LIMIT && (gift ==> CurrencyOf(r) == Ticket)
  }

  predicate OfferCurrent(s: Store, key: nat, gift: bool) {
    key in s.offers && key in s.catalog && s.catalog[key] == s.offers[key].record
    && Sellable(s.offers[key].record, gift)
  }

  function Balance(s: Store, uid: Uid, c: Currency): nat {
    if (uid, c) in s.wallets then s.wallets[(uid, c)] else 0
  }

  // ---------------------------------------------------------------- counts and ids

  function ItemsOf(inventory: map<(Uid, nat), Item>, uid: Uid): set<(Uid, nat)> {
    set k | k in inventory && k.0 == uid
  }

  function PendingOf(mailbox: map<nat, Mail>, uid: Uid): set<nat> {
    set k | k in mailbox && mailbox[k].uid == uid && !mailbox[k].deleted
  }

  predicate AboveAll(inventory: map<(Uid, nat), Item>, n: nat) {
    forall k <- inventory :: k.1 <= n
  }

  predicate IsGreatest(keys: set<(Uid, nat)>, n: nat) {
    (forall k <- keys :: k.1 <= n) && (n == 0 || exists k <- keys :: k.1 == n)
  }

  lemma {:induction false} GreatestExists(keys: set<(Uid, nat)>)
    ensures exists n: nat :: IsGreatest(keys, n)
  {
    if keys == {} {
      assert IsGreatest(keys, 0);
    } else {
      var k: (Uid, nat) :| k in keys;
      var rest: set<(Uid, nat)> := keys - {k};
      GreatestExists(rest);
      var n: nat :| IsGreatest(rest, n);
      assert forall x <- keys :: x in rest || x == k;
      assert IsGreatest(keys, if k.1 > n then k.1 else n);
    }
  }

  /** The greatest instance id any player holds, or zero. */
  ghost function GreatestInstance(inventory: map<(Uid, nat), Item>): (n: nat)
    ensures AboveAll(inventory, n) && IsGreatest(inventory.Keys, n)
  {
    GreatestExists(inventory.Keys);
    var n: nat :| IsGreatest(inventory.Keys, n);
    n
  }

  function Greater(a: nat, b: nat): nat { if a > b then a else b }

  ghost function NextInstance(s: Store): nat {
    Greater(INSTANCE_FLOOR, Greater(GreatestInstance(s.inventory), s.instances)) + 1
  }

  ghost predicate CanAllocate(s: Store) { NextInstance(s) < INSTANCE_LIMIT }

  function NextAttachment(s: Store): nat { Greater(s.attachments, ATTACHMENT_FLOOR) + 1 }

  // ---------------------------------------------------------------- purchase

  predicate RequestMatches(uid: Uid, q: Request, r: Record) {
    && q.sender == uid && q.buyer == uid && !q.extras
    && (q.code, q.gold, q.ticket)
       == (if CurrencyOf(r) == Gold then (111, Price(r, false), 0) else (109, 0, Price(r, false)))
  }

  predicate OpSound(op: Op) { 1 <= |op| <= 128 }

  /** A purchase that is not a replay and meets every condition. */
  ghost predicate Buys(s: Store, uid: Uid, op: Op, q: Request) {
    && OpSound(op) && (uid, op) !in s.purchases && OfferCurrent(s, q.key, false)
    && RequestMatches(uid, q, s.offers[q.key].record) && |ItemsOf(s.inventory, uid)| < INVENTORY_LIMIT
    && Balance(s, uid, CurrencyOf(s.offers[q.key].record)) >= Price(s.offers[q.key].record, false) && CanAllocate(s)
  }

  ghost function Bought(s: Store, uid: Uid, op: Op, q: Request): Store
    requires Buys(s, uid, op, q)
  {
    var r := s.offers[q.key].record;
    var left := Balance(s, uid, CurrencyOf(r)) - Price(r, false);
    var item := Item(NextInstance(s), s.offers[q.key].grant, q.key in s.permanent);
    s.(wallets := s.wallets[(uid, CurrencyOf(r)) := left],
       inventory := s.inventory[(uid, item.instance) := item], instances := item.instance,
       purchases := s.purchases[(uid, op) := Purchase(q, left, item, r)])
  }

  // ---------------------------------------------------------------- mail

  predicate Delivered(s: Store, uid: Uid, d: Delivery) {
    exists k <- s.mailbox :: s.mailbox[k].uid == uid && s.mailbox[k].delivery == d
  }

  predicate MailRoom(s: Store, uid: Uid, grant: Option<Grant>) {
    && uid in s.names && |PendingOf(s.mailbox, uid)| < MAILBOX_LIMIT && s.mails + 1 < KEY_LIMIT
    && (grant.Some? ==> grant.value.mailable && NextAttachment(s) < KEY_LIMIT)
  }

  function Posted(s: Store, uid: Uid, d: Delivery, content: nat, grant: Option<Grant>): Store {
    var attachment := if grant.Some? then NextAttachment(s) else 0;
    s.(mails := s.mails + 1, attachments := if grant.Some? then attachment else s.attachments,
       mailbox := s.mailbox[s.mails + 1 := Mail(uid, d, content, grant, attachment, None, false)])
  }

  // ---------------------------------------------------------------- gift

  function Named(s: Store, name: string): set<Uid> {
    set u | u in s.names && s.names[u] == name
  }

  ghost predicate Gives(s: Store, uid: Uid, op: Op, q: GiftRequest, target: Uid, content: nat) {
    && OpSound(op) && q.sound && (uid, op) !in s.gifts && Named(s, q.name) == {target} && target != uid
    && q.hint in {0, target} && OfferCurrent(s, q.key, true) && q.quote == Price(s.offers[q.key].record, true)
    && !Delivered(s, target, ByGift(uid, op)) && MailRoom(s, target, Some(s.offers[q.key].grant))
    && Balance(s, uid, Ticket) >= q.quote
  }

  function Given(s: Store, uid: Uid, op: Op, q: GiftRequest, target: Uid, content: nat): Store
    requires q.key in s.offers && Balance(s, uid, Ticket) >= q.quote
  {
    var x := Posted(s, target, ByGift(uid, op), content, Some(s.offers[q.key].grant));
    x.(wallets := s.wallets[(uid, Ticket) := Balance(s, uid, Ticket) - q.quote],
       gifts := s.gifts[(uid, op) := Gift(q, target, s.mails + 1)])
  }

  // ---------------------------------------------------------------- claim

  predicate IsAttachment(s: Store, k: nat, uid: Uid, attachment: nat) {
    k in s.mailbox && s.mailbox[k].uid == uid && s.mailbox[k].attachment == attachment && attachment != 0
  }

  ghost predicate Claims(s: Store, k: nat, uid: Uid, attachment: nat) {
    && IsAttachment(s, k, uid, attachment) && s.mailbox[k].claimed.None? && !s.mailbox[k].deleted
    && s.mailbox[k].grant.Some? && |ItemsOf(s.inventory, uid)| < INVENTORY_LIMIT && CanAllocate(s)
  }

  ghost function Claimed(s: Store, k: nat, uid: Uid): Store
    requires k in s.mailbox && s.mailbox[k].grant.Some?
  {
    var item := Item(NextInstance(s), s.mailbox[k].grant.value, false);
    s.(inventory := s.inventory[(uid, item.instance) := item], instances := item.instance,
       mailbox := s.mailbox[k := s.mailbox[k].(claimed := Some(item.instance))])
  }

  // ---------------------------------------------------------------- every call

  datatype Event =
    | Buy(uid: Uid, op: Op, request: Request)
    | Give(uid: Uid, op: Op, gift: GiftRequest, content: nat)
    | Claim(uid: Uid, attachment: nat)
    | Remove(uid: Uid, mail: nat)
    | Post(uid: Uid, id: string, content: nat, grant: Option<Grant>)
    | Award(uid: Uid, item: Grant, lasting: bool, capped: bool)
    | Discard(uid: Uid, instance: nat)
    | Credit(uid: Uid, currency: Currency, amount: nat)
    | Configure(key: nat, record: Option<Record>, offer: Option<Offer>, permanent: bool)

  /** The only player of a name. */
  ghost function Recipient(s: Store, name: string): Uid
    requires |Named(s, name)| == 1
  {
    var u :| u in Named(s, name);
    u
  }

  ghost function MailOf(s: Store, uid: Uid, attachment: nat): nat
    requires exists k :: IsAttachment(s, k, uid, attachment)
  {
    var k :| IsAttachment(s, k, uid, attachment);
    k
  }

  ghost predicate Buying(s: Store, e: Event) { e.Buy? && Buys(s, e.uid, e.op, e.request) }

  ghost predicate Giving(s: Store, e: Event) {
    && e.Give? && |Named(s, e.gift.name)| == 1
    && Gives(s, e.uid, e.op, e.gift, Recipient(s, e.gift.name), e.content)
  }

  ghost predicate Claiming(s: Store, e: Event) {
    && e.Claim? && (exists k :: IsAttachment(s, k, e.uid, e.attachment))
    && Claims(s, MailOf(s, e.uid, e.attachment), e.uid, e.attachment)
  }

  /**
   * Titles, quests, provisioning and repairs insert an item of their own choice under the next id. All but the
   * offline repair of duplicate ids, which replaces an item by another, are capped.
   */
  ghost predicate Awarding(s: Store, e: Event) { e.Award? && Awards(s, e.uid, e.capped) }

  ghost predicate Awards(s: Store, uid: Uid, capped: bool) {
    (capped ==> |ItemsOf(s.inventory, uid)| < INVENTORY_LIMIT) && CanAllocate(s)
  }

  /** A call that is refused, or a replay of one that was carried out, leaves the store as it is. */
  ghost function Step(s: Store, e: Event): Store {
    match e
    case Buy(uid, op, q) => if Buying(s, e) then Bought(s, uid, op, q) else s
    case Give(uid, op, q, content) => if Giving(s, e) then Given(s, uid, op, q, Recipient(s, q.name), content) else s
    case Claim(uid, attachment) => if Claiming(s, e) then Claimed(s, MailOf(s, uid, attachment), uid) else s
    case Remove(uid, k) =>
      if k in s.mailbox && s.mailbox[k].uid == uid
      then s.(mailbox := s.mailbox[k := s.mailbox[k].(deleted := true)]) else s
    case Post(uid, id, content, grant) =>
      if !Delivered(s, uid, ByAdmin(id)) && MailRoom(s, uid, grant)
      then Posted(s, uid, ByAdmin(id), content, grant) else s
    case Award(uid, grant, lasting, _) =>
      if Awarding(s, e) then
        s.(inventory := s.inventory[(uid, NextInstance(s)) := Item(NextInstance(s), grant, lasting)],
           instances := NextInstance(s))
      else s
    case Discard(uid, instance) => s.(inventory := s.inventory - {(uid, instance)})
    case Credit(uid, c, amount) =>
      if uid in s.names && Balance(s, uid, c) + amount <= BALANCE_LIMIT
      then s.(wallets := s.wallets[(uid, c) := Balance(s, uid, c) + amount]) else s
    case Configure(key, record, offer, permanent) =>
      s.(catalog := if record.Some? then s.catalog[key := record.value] else s.catalog - {key},
         offers := if offer.Some? then s.offers[key := offer.value] else s.offers - {key},
         permanent := if permanent then s.permanent + {key} else s.permanent - {key})
  }

  ghost function Run(start: Store, events: seq<Event>): Store {
    if events == [] then start else Step(Run(start, events[..|events| - 1]), events[|events| - 1])
  }

  // ---------------------------------------------------------------- wallets

  /** What a call takes out of a wallet: the price of the offer it carries out, and nothing otherwise. */
  ghost function Debit(s: Store, e: Event, uid: Uid, c: Currency): nat {
    if Buying(s, e) && e.uid == uid && CurrencyOf(s.offers[e.request.key].record) == c
    then Price(s.offers[e.request.key].record, false)
    else if Giving(s, e) && e.uid == uid && c == Ticket then Price(s.offers[e.gift.key].record, true)
    else 0
  }

  ghost function Income(s: Store, e: Event, uid: Uid, c: Currency): nat {
    if e.Credit? && e.uid == uid && e.currency == c && uid in s.names && Balance(s, uid, c) + e.amount <= BALANCE_LIMIT
    then e.amount else 0
  }

  ghost function Debits(start: Store, events: seq<Event>, uid: Uid, c: Currency): nat {
    if events == [] then 0
    else Debits(start, events[..|events| - 1], uid, c)
         + Debit(Run(start, events[..|events| - 1]), events[|events| - 1], uid, c)
  }

  ghost function Incomes(start: Store, events: seq<Event>, uid: Uid, c: Currency): nat {
    if events == [] then 0
    else Incomes(start, events[..|events| - 1], uid, c)
         + Income(Run(start, events[..|events| - 1]), events[|events| - 1], uid, c)
  }

  /** What a purchase carried out writes. */
  lemma BuyStep(s: Store, e: Event)
    requires Buying(s, e)
    ensures var x, r := Step(s, e), s.offers[e.request.key].record;
      && Balance(s, e.uid, CurrencyOf(r)) >= Price(r, false) && (e.uid, e.op) !in s.purchases
      && x.wallets == s.wallets[(e.uid, CurrencyOf(r)) := Balance(s, e.uid, CurrencyOf(r)) - Price(r, false)]
      && x.inventory.Keys == s.inventory.Keys + {(e.uid, NextInstance(s))} && x.instances == NextInstance(s)
      && (e.uid, e.op) in x.purchases && x.purchases == s.purchases[(e.uid, e.op) := x.purchases[(e.uid, e.op)]]
      && x.purchases[(e.uid, e.op)].request == e.request && x.purchases[(e.uid, e.op)].record == r
      && x.purchases[(e.uid, e.op)].item.instance == NextInstance(s)
      && x.gifts == s.gifts && x.mailbox == s.mailbox && x.mails == s.mails && x.attachments == s.attachments
  {
    hide NextInstance, CanAllocate, ItemsOf, RequestMatches, OfferCurrent, Price, CurrencyOf, Balance;
  }

  /** What a gift carried out writes. */
  lemma GiveStep(s: Store, e: Event)
    requires Giving(s, e)
    ensures e.gift.key in s.offers && |Named(s, e.gift.name)| == 1
    ensures var x := Step(s, e);
      var y := Posted(s, Recipient(s, e.gift.name), ByGift(e.uid, e.op), e.content, Some(s.offers[e.gift.key].grant));
      && Balance(s, e.uid, Ticket) >= Price(s.offers[e.gift.key].record, true) && (e.uid, e.op) !in s.gifts
      && x.wallets == s.wallets[(e.uid, Ticket) := Balance(s, e.uid, Ticket) - Price(s.offers[e.gift.key].record, true)]
      && x.inventory == s.inventory && x.instances == s.instances && x.purchases == s.purchases
      && x.mailbox == y.mailbox && x.mails == y.mails && x.attachments == y.attachments
      && x.gifts == s.gifts[(e.uid, e.op) := Gift(e.gift, Recipient(s, e.gift.name), s.mails + 1)]
  {
    hide Recipient, MailRoom, Price, Balance, Delivered, NextAttachment;
  }

  /** What a claim carried out writes. */
  lemma ClaimStep(s: Store, e: Event)
    requires Claiming(s, e)
    ensures exists k :: IsAttachment(s, k, e.uid, e.attachment)
    ensures var x, k := Step(s, e), MailOf(s, e.uid, e.attachment);
      && IsAttachment(s, k, e.uid, e.attachment) && s.mailbox[k].claimed.None? && s.mailbox[k].grant.Some?
      && x.wallets == s.wallets && x.purchases == s.purchases && x.gifts == s.gifts
      && x.mails == s.mails && x.attachments == s.attachments
      && x.inventory.Keys == s.inventory.Keys + {(e.uid, NextInstance(s))} && x.instances == NextInstance(s)
      && x.mailbox == s.mailbox[k := s.mailbox[k].(claimed := Some(NextInstance(s)))]
  {
    hide NextInstance, CanAllocate, ItemsOf;
  }

  /** What every other call may write. */
  lemma OtherStep(s: Store, e: Event)
    requires !Buying(s, e) && !Giving(s, e) && !Claiming(s, e)
    ensures var x := Step(s, e);
      && x.purchases == s.purchases && x.gifts == s.gifts
      && (e.Credit? || x.wallets == s.wallets)
      && (e.Remove? || e.Post? || (x.mailbox == s.mailbox && x.mails == s.mails && x.attachments == s.attachments))
      && (e.Remove? ==> x.mails == s.mails && x.attachments == s.attachments
                        && (x.mailbox == s.mailbox
                            || (e.mail in s.mailbox
                               && x.mailbox == s.mailbox[e.mail := s.mailbox[e.mail].(deleted := true)])))
      && (e.Post? ==> x == s || x == Posted(s, e.uid, ByAdmin(e.id), e.content, e.grant))
  {
    hide Buying, Giving, Claiming, Delivered, MailRoom, NextAttachment, Balance, NextInstance, CanAllocate;
  }

  /** Among the other calls only awards add an item, under the next id. */
  lemma OtherItems(s: Store, e: Event)
    requires !Buying(s, e) && !Giving(s, e) && !Claiming(s, e)
    ensures var x := Step(s, e);
      && (!Awarding(s, e) ==> x.instances == s.instances && x.inventory.Keys <= s.inventory.Keys)
      && (Awarding(s, e) ==> x.instances == NextInstance(s)
                             && x.inventory.Keys == s.inventory.Keys + {(e.uid, NextInstance(s))})
  {
    hide Buying, Giving, Claiming, Delivered, MailRoom, NextAttachment, Balance, NextInstance, CanAllocate;
  }

  lemma BuyWallet(s: Store, e: Event, uid: Uid, c: Currency)
    requires Buying(s, e)
    ensures Balance(Step(s, e), uid, c) + Debit(s, e, uid, c) == Balance(s, uid, c) && Income(s, e, uid, c) == 0
  {
    BuyStep(s, e);
    hide Step, Giving, Price, CurrencyOf, NextInstance, Buys;
  }

  lemma GiveWallet(s: Store, e: Event, uid: Uid, c: Currency)
    requires Giving(s, e)
    ensures Balance(Step(s, e), uid, c) + Debit(s, e, uid, c) == Balance(s, uid, c) && Income(s, e, uid, c) == 0
  {
    GiveStep(s, e);
    assert !Buying(s, e);
    hide Step, Price, CurrencyOf, Posted, Recipient, Named, Gives, Buying;
  }

  lemma CreditWallet(s: Store, e: Event, uid: Uid, c: Currency)
    requires e.Credit?
    ensures Debit(s, e, uid, c) == 0 && Balance(Step(s, e), uid, c) == Balance(s, uid, c) + Income(s, e, uid, c)
  {
    var x := Step(s, e);
    assert x.wallets == s.wallets
        || x.wallets == s.wallets[(e.uid, e.currency) := Balance(s, e.uid, e.currency) + e.amount];
    hide Debit, Buys, Gives, Claims, Bought, Given, Claimed;
    NoDebit(s, e, uid, c);
  }

  lemma NoDebit(s: Store, e: Event, uid: Uid, c: Currency)
    requires !e.Buy? && !e.Give?
    ensures Debit(s, e, uid, c) == 0
  {
  }

  lemma SameWallet(s: Store, e: Event, uid: Uid, c: Currency)
    requires !e.Credit? && !Buying(s, e) && !Giving(s, e) && Step(s, e).wallets == s.wallets
    ensures Debit(s, e, uid, c) == 0 && Balance(Step(s, e), uid, c) == Balance(s, uid, c) + Income(s, e, uid, c)
  {
    hide Step, Buying, Giving;
  }

  lemma OtherWallet(s: Store, e: Event, uid: Uid, c: Currency)
    requires !Buying(s, e) && !Giving(s, e)
    ensures Debit(s, e, uid, c) == 0 && Balance(Step(s, e), uid, c) == Balance(s, uid, c) + Income(s, e, uid, c)
  {
    hide Step, Buying, Giving, Claiming, Debit, Income, Balance, Posted, MailOf, NextInstance;
    if e.Credit? {
      CreditWallet(s, e, uid, c);
    } else {
      if Claiming(s, e) {
        ClaimStep(s, e);
      } else {
        OtherStep(s, e);
      }
      SameWallet(s, e, uid, c);
    }
  }

  lemma StepWallet(s: Store, e: Event, uid: Uid, c: Currency)
    ensures Balance(Step(s, e), uid, c) + Debit(s, e, uid, c) == Balance(s, uid, c) + Income(s, e, uid, c)
  {
    hide Step, Buying, Giving, Balance, Debit, Income;
    if Buying(s, e) {
      BuyWallet(s, e, uid, c);
    } else if Giving(s, e) {
      GiveWallet(s, e, uid, c);
    } else {
      OtherWallet(s, e, uid, c);
    }
  }

  /** A wallet is what it was, plus what was credited, minus exactly the prices of the calls carried out. */
  lemma {:induction false} WalletsConserved(start: Store, events: seq<Event>, uid: Uid, c: Currency)
    ensures Balance(Run(start, events), uid, c) + Debits(start, events, uid, c)
         == Balance(start, uid, c) + Incomes(start, events, uid, c)
  {
    if events != [] {
      WalletsConserved(start, events[..|events| - 1], uid, c);
      StepWallet(Run(start, events[..|events| - 1]), events[|events| - 1], uid, c);
      hide Step, Debit, Income, Balance;
    }
  }

  /** No balance is ever negative or beyond the wallet's range. */
  lemma {:induction false} BalancesBounded(start: Store, events: seq<Event>, uid: Uid, c: Currency)
    requires Balance(start, uid, c) <= BALANCE_LIMIT
    ensures 0 <= Balance(Run(start, events), uid, c) <= BALANCE_LIMIT
  {
    if events != [] {
      var s, e := Run(start, events[..|events| - 1]), events[|events| - 1];
      BalancesBounded(start, events[..|events| - 1], uid, c);
      StepWallet(s, e, uid, c);
      IncomeFits(s, e, uid, c);
      hide Step, Debit, Income, Balance;
    }
  }

  lemma IncomeFits(s: Store, e: Event, uid: Uid, c: Currency)
    ensures Income(s, e, uid, c) == 0
            || (Debit(s, e, uid, c) == 0 && Balance(s, uid, c) + Income(s, e, uid, c) <= BALANCE_LIMIT)
  {
  }

  // ---------------------------------------------------------------- once per operation

  ghost predicate Keeps(x: Store, s: Store) {
    && (forall k <- s.purchases :: k in x.purchases && x.purchases[k] == s.purchases[k])
    && (forall k <- s.gifts :: k in x.gifts && x.gifts[k] == s.gifts[k])
  }

  /** Receipts stay, and every operation carried out leaves one. */
  lemma StepReceipts(s: Store, e: Event)
    ensures Keeps(Step(s, e), s)
    ensures Buying(s, e) ==> (e.uid, e.op) !in s.purchases && (e.uid, e.op) in Step(s, e).purchases
    ensures Giving(s, e) ==> (e.uid, e.op) !in s.gifts && (e.uid, e.op) in Step(s, e).gifts
  {
    if Buying(s, e) {
      BuyStep(s, e);
    } else if Giving(s, e) {
      GiveStep(s, e);
    } else if Claiming(s, e) {
      ClaimStep(s, e);
    } else {
      OtherStep(s, e);
    }
    hide Step, Buying, Giving, Claiming, Posted, NextInstance, MailOf, IsAttachment, Recipient, Named, Balance, Price;
  }

  lemma {:induction false} ReceiptsStay(start: Store, events: seq<Event>, n: nat)
    requires n <= |events|
    ensures Keeps(Run(start, events), Run(start, events[..n]))
  {
    if n < |events| {
      var before := events[..|events| - 1];
      ReceiptsStay(start, before, n);
      assert before[..n] == events[..n];
      StepReceipts(Run(start, before), events[|events| - 1]);
      hide Step, Buying, Giving;
    } else {
      assert events[..n] == events;
    }
  }

  /** An operation id is carried out at most once per player, as a purchase and as a gift: later calls are replays. */
  lemma OncePerOperation(start: Store, events: seq<Event>, i: nat, j: nat)
    requires i < j < |events|
    ensures !(events[i].Buy? && events[j].Buy? && events[i].uid == events[j].uid && events[i].op == events[j].op
              && Buying(Run(start, events[..i]), events[i]) && Buying(Run(start, events[..j]), events[j]))
    ensures !(events[i].Give? && events[j].Give? && events[i].uid == events[j].uid && events[i].op == events[j].op
              && Giving(Run(start, events[..i]), events[i]) && Giving(Run(start, events[..j]), events[j]))
  {
    StepReceipts(Run(start, events[..i]), events[i]);
    StepReceipts(Run(start, events[..j]), events[j]);
    assert events[..j][..i + 1] == events[..i + 1];
    ReceiptsStay(start, events[..j], i + 1);
    RunOneMore(start, events, i);
    hide Step, Buying, Giving, Run;
  }

  // ---------------------------------------------------------------- instance ids

  ghost predicate Allocates(s: Store, e: Event) { Buying(s, e) || Claiming(s, e) || Awarding(s, e) }

  /** The instance id a call allocates, if it allocates one. */
  ghost function Allocation(s: Store, e: Event): seq<nat> {
    if Allocates(s, e) then [NextInstance(s)] else []
  }

  ghost function Allocations(start: Store, events: seq<Event>): seq<nat> {
    if events == [] then []
    else Allocations(start, events[..|events| - 1])
         + Allocation(Run(start, events[..|events| - 1]), events[|events| - 1])
  }

  ghost predicate Increasing(ids: seq<nat>) {
    forall i, j :: 0 <= i < j < |ids| ==> ids[i] < ids[j]
  }

  /** A call that allocates adds exactly one item, under the new id; no other call adds any. */
  lemma StepItems(s: Store, e: Event)
    ensures var x := Step(s, e);
      && (Allocates(s, e) ==>
            && x.instances == NextInstance(s) && x.inventory.Keys == s.inventory.Keys + {(e.uid, NextInstance(s))}
            && forall u :: (u, NextInstance(s)) !in s.inventory)
      && (!Allocates(s, e) ==> x.instances == s.instances && x.inventory.Keys <= s.inventory.Keys)
  {
    NextIsFree(s);
    if Buying(s, e) {
      BuyStep(s, e);
    } else if Claiming(s, e) {
      ClaimStep(s, e);
    } else if Giving(s, e) {
      GiveStep(s, e);
    } else {
      OtherItems(s, e);
    }
    hide Step, Buying, Giving, Claiming, Awarding, Posted, NextInstance,
      MailOf, IsAttachment, Recipient, Named, Balance, Price;
  }

  lemma NextIsFree(s: Store)
    ensures forall u :: (u, NextInstance(s)) !in s.inventory
    ensures NextInstance(s) > s.instances
  {
  }

  lemma Extends(ids: seq<nat>, n: nat, bound: nat)
    requires Increasing(ids) && (forall m <- ids :: m <= bound) && bound < n
    ensures Increasing(ids + [n]) && forall m <- ids + [n] :: m in ids || m == n
  {
    assert forall i :: 0 <= i < |ids| ==> ids[i] in ids && (ids + [n])[i] == ids[i];
  }

  /**
   * Every allocated instance id is new: greater than every id allocated before it in the run, by whatever player,
   * whether the item still exists or has been deleted.
   */
  lemma {:induction false} InstancesIncrease(start: Store, events: seq<Event>)
    ensures Increasing(Allocations(start, events))
    ensures forall n <- Allocations(start, events) :: start.instances < n <= Run(start, events).instances
    ensures start.instances <= Run(start, events).instances
  {
    if events != [] {
      var s, e := Run(start, events[..|events| - 1]), events[|events| - 1];
      InstancesIncrease(start, events[..|events| - 1]);
      StepItems(s, e);
      NextIsFree(s);
      var ids := Allocations(start, events[..|events| - 1]);
      hide Step, Allocates, NextInstance, Run;
      if Allocation(s, e) != [] {
        Extends(ids, NextInstance(s), s.instances);
      } else {
        assert ids + [] == ids;
      }
    }
  }

  // ---------------------------------------------------------------- ids of deleted items

  ghost function CounterBase(s: Store): nat { Greater(INSTANCE_FLOOR, s.instances) }

  /** The counter, or its floor, bounds every id there is. */
  ghost predicate Covered(s: Store) { AboveAll(s.inventory, CounterBase(s)) }

  lemma StepCovered(s: Store, e: Event)
    ensures CounterBase(s) <= CounterBase(Step(s, e)) && (Covered(s) ==> Covered(Step(s, e)))
  {
    StepItems(s, e);
    NextIsFree(s);
    hide Step, Allocates, NextInstance;
    var x := Step(s, e);
    assert forall k :: k in x.inventory <==> k in x.inventory.Keys;
    assert forall k :: k in s.inventory <==> k in s.inventory.Keys;
  }

  lemma {:induction false} RunCovered(start: Store, events: seq<Event>, k: nat)
    requires Covered(start) && k <= |events|
    ensures Covered(Run(start, events)) && CounterBase(Run(start, events[..k])) <= CounterBase(Run(start, events))
  {
    if events == [] {
      assert events[..k] == events;
    } else {
      var before := events[..|events| - 1];
      if k < |events| {
        RunCovered(start, before, k);
        assert before[..k] == events[..k];
      } else {
        RunCovered(start, before, 0);
        assert events[..k] == events;
      }
      StepCovered(Run(start, before), events[|events| - 1]);
      hide Step, Covered, CounterBase;
    }
  }

  ghost predicate HeldBefore(start: Store, events: seq<Event>, n: nat) {
    exists k: nat, u: Uid :: k <= |events| && (u, n) in Run(start, events[..k]).inventory
  }

  /** The next call allocates an id that somebody held before, at the start or since, deleted or not. */
  ghost predicate Reuses(start: Store, events: seq<Event>, e: Event) {
    Allocates(Run(start, events), e) && HeldBefore(start, events, NextInstance(Run(start, events)))
  }

  lemma CoveredNeverReuses(start: Store, events: seq<Event>, e: Event)
    requires Covered(start)
    ensures !Reuses(start, events, e)
  {
    var s := Run(start, events);
    NextIsFree(s);
    forall k: nat, u: Uid | k <= |events|
      ensures (u, NextInstance(s)) !in Run(start, events[..k]).inventory
    {
      RunCovered(start, events, k);
      RunCovered(start, events[..k], 0);
      hide Run;
      assert NextInstance(s) > CounterBase(s);
    }
  }

  /**
   * A run that discards these items. The code deletes an item only where a talisman repair uses up a stack of
   * material or the offline repair gives a duplicate id a new number; here any item may be one of those.
   */
  lemma {:induction false} DiscardAll(s: Store, gone: set<(Uid, nat)>) returns (events: seq<Event>)
    ensures Run(s, events) == s.(inventory := s.inventory - gone)
    decreases |gone|
  {
    if gone == {} {
      events := [];
      assert s.inventory - gone == s.inventory;
    } else {
      var k :| k in gone;
      var x := s.(inventory := s.inventory - {k});
      var rest := DiscardAll(x, gone - {k});
      assert x.inventory - (gone - {k}) == s.inventory - gone;
      events := [Discard(k.0, k.1)] + rest;
      FirstStep(s, Discard(k.0, k.1), rest);
    }
  }

  lemma LastOfRun(s: Store, events: seq<Event>, e: Event)
    ensures Run(s, events + [e]) == Step(Run(s, events), e)
  {
    assert (events + [e])[..|events|] == events;
    hide Step;
  }

  lemma {:induction false} FirstStep(s: Store, e: Event, rest: seq<Event>)
    ensures Run(s, [e] + rest) == Run(Step(s, e), rest)
  {
    hide Step;
    if rest == [] {
      LastOfRun(s, [], e);
      assert [e] + rest == [] + [e];
    } else {
      var before, f := rest[..|rest| - 1], rest[|rest| - 1];
      hide Run;
      FirstStep(s, e, before);
      LastOfRun(s, [e] + before, f);
      LastOfRun(Step(s, e), before, f);
      assert rest == before + [f] && [e] + rest == [e] + before + [f];
    }
  }

  const AWARD: Event := Award(1, Grant(0, false), false, true)

  /** Award an item and discard it again, n times, from a counter at `base` on. */
  function Rounds(base: nat, n: nat): seq<Event> {
    if n == 0 then [] else Rounds(base, n - 1) + [AWARD] + [Discard(1, base + n)]
  }

  /** Player 1 holds nothing and every id is below the counter. */
  ghost predicate Ready(s: Store, base: nat) {
    Covered(s) && CounterBase(s) == base && forall k <- s.inventory :: k.0 != 1
  }

  lemma ReadyCanBeAwarded(s: Store, base: nat)
    requires Ready(s, base) && base + 1 < INSTANCE_LIMIT
    ensures Awarding(s, AWARD) && NextInstance(s) == base + 1
  {
    CoveredNext(s);
    assert ItemsOf(s.inventory, 1) == {};
  }

  lemma CoveredNext(s: Store)
    requires Covered(s)
    ensures NextInstance(s) == CounterBase(s) + 1
  {
    hide AboveAll;
    if GreatestInstance(s.inventory) > CounterBase(s) {
      GreatestHeld(s.inventory);
    }
  }

  lemma GreatestHeld(inventory: map<(Uid, nat), Item>)
    ensures forall bound: nat :: AboveAll(inventory, bound) ==> GreatestInstance(inventory) <= bound
  {
  }

  /** A round leaves the player's items as they were and the counter one higher. */
  lemma RoundCounts(s: Store, base: nat)
    requires Ready(s, base) && base + 1 < INSTANCE_LIMIT
    ensures Ready(Step(Step(s, AWARD), Discard(1, base + 1)), base + 1)
  {
    ReadyCanBeAwarded(s, base);
    StepItems(s, AWARD);
    StepCovered(s, AWARD);
    StepCovered(Step(s, AWARD), Discard(1, base + 1));
    var t := Step(s, AWARD);
    assert forall k :: k in t.inventory <==> k in t.inventory.Keys;
    hide NextInstance, Covered, Awards, Allocates;
  }

  lemma {:induction false} RoundsCount(s: Store, base: nat, n: nat)
    requires Ready(s, base) && base + n < INSTANCE_LIMIT
    ensures Ready(Run(s, Rounds(base, n)), base + n)
  {
    hide Step, Ready;
    if n > 0 {
      var before := Rounds(base, n - 1);
      assert Rounds(base, n) == before + [AWARD] + [Discard(1, base + n)];
      RoundsCount(s, base, n - 1);
      hide Run, Rounds;
      LastOfRun(s, before, AWARD);
      LastOfRun(s, before + [AWARD], Discard(1, base + n));
      RoundCounts(Run(s, before), base + n - 1);
    }
  }

  lemma RunSplits(s: Store, a: seq<Event>, b: seq<Event>)
    ensures Run(s, a + b) == Run(Run(s, a), b)
    decreases |b|
  {
    if b == [] {
      assert a + b == a;
    } else {
      assert (a + b)[..|a + b| - 1] == a + b[..|b| - 1];
      RunSplits(s, a, b[..|b| - 1]);
    }
    hide Step;
  }

  lemma MakeReady(start: Store) returns (events: seq<Event>)
    ensures Ready(Run(start, events), CounterBase(start))
  {
    var gone := set k | k in start.inventory && (k.1 > CounterBase(start) || k.0 == 1);
    events := DiscardAll(start, gone);
    hide Run;
  }

  /** If some id lies above the counter, deleting it and counting up to it hands it out again. */
  lemma UncoveredReuses(start: Store, k: (Uid, nat)) returns (events: seq<Event>)
    requires k in start.inventory && CounterBase(start) < k.1 < INSTANCE_LIMIT
    ensures Reuses(start, events, AWARD)
  {
    var base := CounterBase(start);
    hide Step, NextInstance, Ready, Rounds, CounterBase, Awarding;
    var discards := MakeReady(start);
    var rounds := Rounds(base, k.1 - base - 1);
    events := discards + rounds;
    HeldAtStart(start, events, k);
    hide Run, HeldBefore;
    RoundsCount(Run(start, discards), base, k.1 - base - 1);
    RunSplits(start, discards, rounds);
    ReadyCanBeAwarded(Run(start, events), k.1 - 1);
  }

  lemma HeldAtStart(start: Store, events: seq<Event>, k: (Uid, nat))
    requires k in start.inventory
    ensures HeldBefore(start, events, k.1)
  {
    assert events[..0] == [] && Run(start, []) == start;
    assert (k.0, k.1) in Run(start, events[..0]).inventory;
    hide Run;
  }

  /**
   * Every id allocated from a store on is new, not only among the items that exist but among all that were ever held,
   * if and only if the counter covers the ids the store holds at the start. Every run of the allocator keeps that.
   */
  lemma NewForeverIff(start: Store)
    requires forall k <- start.inventory :: k.1 < INSTANCE_LIMIT
    ensures Covered(start) <==> forall events: seq<Event>, e: Event :: !Reuses(start, events, e)
  {
    if Covered(start) {
      forall events: seq<Event>, e: Event
        ensures !Reuses(start, events, e)
      {
        CoveredNeverReuses(start, events, e);
      }
    } else {
      var k :| k in start.inventory && k.1 > CounterBase(start);
      var events := UncoveredReuses(start, k);
    }
  }

  // ---------------------------------------------------------------- attachments

  /** Mail and attachment ids come from counters, so no two mails share an attachment. */
  ghost predicate MailSound(s: Store) {
    && (forall k <- s.mailbox :: 1 <= k <= s.mails && s.mailbox[k].attachment <= s.attachments)
    && (forall k <- s.mailbox, l <- s.mailbox :: k != l && s.mailbox[k].attachment == s.mailbox[l].attachment ==>
          s.mailbox[k].attachment == 0)
  }

  /** What mail a step may change: claims stay, attachments and owners never change. */
  ghost predicate MailKept(x: Store, s: Store) {
    forall k <- s.mailbox :: k in x.mailbox && x.mailbox[k].uid == s.mailbox[k].uid
                             && x.mailbox[k].attachment == s.mailbox[k].attachment
                             && (s.mailbox[k].claimed.Some? ==> x.mailbox[k].claimed == s.mailbox[k].claimed)
  }

  lemma PostedMail(s: Store, uid: Uid, d: Delivery, content: nat, grant: Option<Grant>)
    requires MailSound(s)
    ensures MailSound(Posted(s, uid, d, content, grant)) && MailKept(Posted(s, uid, d, content, grant), s)
  {
    assert s.mails + 1 !in s.mailbox;
  }

  lemma MailUntouched(x: Store, s: Store)
    requires MailSound(s) && x.mailbox == s.mailbox && x.mails == s.mails && x.attachments == s.attachments
    ensures MailSound(x) && MailKept(x, s)
  {
  }

  /** Claiming or deleting a mail changes neither its attachment nor its owner, and never undoes a claim. */
  lemma MailMarked(x: Store, s: Store, k: nat, claimed: Option<nat>, deleted: bool)
    requires MailSound(s) && k in s.mailbox && x.mails == s.mails && x.attachments == s.attachments
    requires x.mailbox == s.mailbox[k := s.mailbox[k].(claimed := claimed, deleted := deleted)]
    requires s.mailbox[k].claimed.Some? ==> claimed == s.mailbox[k].claimed
    ensures MailSound(x) && MailKept(x, s)
  {
  }

  lemma MailLike(x: Store, y: Store, s: Store)
    requires MailSound(y) && MailKept(y, s)
             && x.mailbox == y.mailbox && x.mails == y.mails && x.attachments == y.attachments
    ensures MailSound(x) && MailKept(x, s)
  {
  }

  lemma StepMail(s: Store, e: Event)
    requires MailSound(s)
    ensures MailSound(Step(s, e)) && MailKept(Step(s, e), s)
  {
    hide MailSound, MailKept;
    var x := Step(s, e);
    if Buying(s, e) {
      BuyStep(s, e);
      hide *;
      MailUntouched(x, s);
    } else if Giving(s, e) {
      GiveStep(s, e);
      var target, grant := Recipient(s, e.gift.name), Some(s.offers[e.gift.key].grant);
      PostedMail(s, target, ByGift(e.uid, e.op), e.content, grant);
      hide *;
      MailLike(x, Posted(s, target, ByGift(e.uid, e.op), e.content, grant), s);
    } else if Claiming(s, e) {
      ClaimStep(s, e);
      var k := MailOf(s, e.uid, e.attachment);
      assert k in s.mailbox && s.mailbox[k].(claimed := Some(NextInstance(s)))
          == s.mailbox[k].(claimed := Some(NextInstance(s)), deleted := s.mailbox[k].deleted);
      hide *;
      MailMarked(x, s, k, Some(NextInstance(s)), s.mailbox[k].deleted);
    } else {
      OtherStep(s, e);
      hide Step, Buying, Giving, Claiming, Posted;
      if e.Post? {
        PostedMail(s, e.uid, ByAdmin(e.id), e.content, e.grant);
        MailUntouched(s, s);
      } else if e.Remove? && x.mailbox != s.mailbox {
        MailMarked(x, s, e.mail, s.mailbox[e.mail].claimed, true);
      } else {
        MailUntouched(x, s);
      }
    }
  }

  lemma ClaimMarks(s: Store, e: Event)
    requires Claiming(s, e)
    ensures exists k :: IsAttachment(s, k, e.uid, e.attachment)
    ensures var k := MailOf(s, e.uid, e.attachment);
      IsAttachment(s, k, e.uid, e.attachment) && s.mailbox[k].claimed.None?
      && IsAttachment(Step(s, e), k, e.uid, e.attachment) && Step(s, e).mailbox[k].claimed.Some?
  {
    ClaimStep(s, e);
    hide Step, Claiming, NextInstance, MailOf;
  }

  lemma {:induction false} RunMail(start: Store, events: seq<Event>, n: nat)
    requires MailSound(start) && n <= |events|
    ensures MailSound(Run(start, events)) && MailKept(Run(start, events), Run(start, events[..n]))
  {
    if events == [] {
      assert events[..n] == events;
    } else {
      var before := events[..|events| - 1];
      if n < |events| {
        RunMail(start, before, n);
        assert before[..n] == events[..n];
      } else {
        RunMail(start, before, 0);
        assert events[..n] == events;
      }
      StepMail(Run(start, before), events[|events| - 1]);
      hide Step, Claiming;
    }
  }

  lemma OneMail(s: Store, k: nat, l: nat, uid: Uid, attachment: nat)
    requires MailSound(s) && IsAttachment(s, k, uid, attachment) && IsAttachment(s, l, uid, attachment)
    ensures k == l
  {
  }

  /** Each attachment becomes at most one item: after a claim was carried out, later claims of it are replays. */
  lemma OncePerAttachment(start: Store, events: seq<Event>, i: nat, j: nat)
    requires MailSound(start) && i < j < |events| && events[i].Claim? && events[j].Claim?
    requires events[i].uid == events[j].uid && events[i].attachment == events[j].attachment
    requires Claiming(Run(start, events[..i]), events[i])
    ensures !Claiming(Run(start, events[..j]), events[j])
  {
    var s, t := Run(start, events[..i]), Run(start, events[..j]);
    ClaimMarks(s, events[i]);
    RunOneMore(start, events, i);
    assert events[..j][..i + 1] == events[..i + 1];
    RunMail(start, events[..j], i + 1);
    var uid, a := events[i].uid, events[i].attachment;
    var k := MailOf(s, uid, a);
    hide Step, Run, MailOf, MailSound, Claiming;
    ClaimStays(Step(s, events[i]), t, k, uid, a);
    ClaimedBefore(t, events[j], k);
  }

  lemma RunOneMore(start: Store, events: seq<Event>, i: nat)
    requires i < |events|
    ensures Run(start, events[..i + 1]) == Step(Run(start, events[..i]), events[i])
  {
    var done := events[..i + 1];
    assert done[..i] == events[..i];
    assert done[i] == events[i];
    hide Step;
  }

  lemma ClaimStays(s: Store, t: Store, k: nat, uid: Uid, attachment: nat)
    requires MailKept(t, s) && IsAttachment(s, k, uid, attachment) && s.mailbox[k].claimed.Some?
    ensures IsAttachment(t, k, uid, attachment) && t.mailbox[k].claimed.Some?
  {
  }

  lemma ClaimedBefore(t: Store, e: Event, k: nat)
    requires MailSound(t) && e.Claim? && IsAttachment(t, k, e.uid, e.attachment) && t.mailbox[k].claimed.Some?
    ensures !Claiming(t, e)
  {
    OneMail(t, k, MailOf(t, e.uid, e.attachment), e.uid, e.attachment);
  }

  /** A gift carried out puts exactly one unclaimed mail, with one new attachment, into the recipient's mailbox. */
  lemma GiftPostsOneMail(s: Store, e: Event)
    requires MailSound(s) && Giving(s, e)
    ensures var x, k, target := Step(s, e), s.mails + 1, Recipient(s, e.gift.name);
      && x.mailbox.Keys == s.mailbox.Keys + {k} && k !in s.mailbox && x.mailbox[k].uid == target
      && x.mailbox[k].claimed == None && x.mailbox[k].grant == Some(s.offers[e.gift.key].grant)
      && x.mailbox[k].attachment > ATTACHMENT_FLOOR
      && (forall l <- s.mailbox :: s.mailbox[l].attachment != x.mailbox[k].attachment)
      && x.inventory == s.inventory && x.gifts[(e.uid, e.op)].mail == k
  {
    hide Named, Recipient, MailRoom, OfferCurrent, Balance, Delivered, Price;
    assert s.mails + 1 !in s.mailbox;
  }

  // ---------------------------------------------------------------- gifts and their mails

  /** Mail of a shop gift exists only with the receipt of that gift. */
  ghost predicate GiftsReceipted(s: Store) {
    forall k <- s.mailbox :: s.mailbox[k].delivery.ByGift? ==>
      (s.mailbox[k].delivery.uid, s.mailbox[k].delivery.op) in s.gifts
  }

  /** Mail keeps its delivery identity, and the one new mail a step may add is its own. */
  lemma StepGiftsReceipted(s: Store, e: Event)
    requires GiftsReceipted(s)
    ensures GiftsReceipted(Step(s, e))
  {
    if Buying(s, e) {
      BuyStep(s, e);
      hide Step, Buying, NextInstance, Balance, Price, CurrencyOf;
    } else if Giving(s, e) {
      GiveStep(s, e);
      hide Step, Giving, Recipient, Named, Balance, Price, NextAttachment;
    } else if Claiming(s, e) {
      ClaimStep(s, e);
      hide Step, Claiming, NextInstance, MailOf;
    } else {
      OtherStep(s, e);
      hide Step, Buying, Giving, Claiming, NextAttachment;
    }
  }

  /** In every run from a sound store a gift mail is backed by its receipt, so no gift is delivered without a debit. */
  lemma {:induction false} RunGiftsReceipted(start: Store, events: seq<Event>)
    requires GiftsReceipted(start)
    ensures GiftsReceipted(Run(start, events))
  {
    if events != [] {
      RunGiftsReceipted(start, events[..|events| - 1]);
      StepGiftsReceipted(Run(start, events[..|events| - 1]), events[|events| - 1]);
      hide Step, GiftsReceipted;
    }
  }
}
