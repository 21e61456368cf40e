/** The transactional store: tables updated in place, restored when a call fails half-way. */
module CommerceStore {
  import opened Commerce

  /** The answer of a call: refused, or carried out or replayed with what it returns. */
  datatype Answer =
    | Refused
    | Sold(currency: Currency, left: nat, item: Option<Item>)
    | Sent(left: nat, recipient: Uid, mail: nat)
    | Held(item: Option<Item>)

  function ItemAt(s: Store, uid: Uid, instance: nat): Option<Item> {
    if (uid, instance) in s.inventory then Some(s.inventory[(uid, instance)]) else None
  }

  /** A replay answers with the wallet as it is now and the item of its receipt, if it is still there. */
  ghost function BuyAnswer(s: Store, uid: Uid, op: Op, q: Request): Answer {
    if !OpSound(op) then Refused
    else if (uid, op) in s.purchases then
      var p := s.purchases[(uid, op)];
      if p.request != q || !Sellable(p.record, false) then Refused
      else Sold(CurrencyOf(p.record), Balance(s, uid, CurrencyOf(p.record)), ItemAt(s, uid, p.item.instance))
    else if Buys(s, uid, op, q) then
      var r := s.offers[q.key].record;
      Sold(CurrencyOf(r), Balance(s, uid, CurrencyOf(r)) - Price(r, false),
           Some(Item(NextInstance(s), s.offers[q.key].grant, q.key in s.permanent)))
    else Refused
  }

  ghost function GiveAnswer(s: Store, e: Event): Answer
    requires e.Give?
  {
    if !e.gift.sound || !OpSound(e.op) then Refused
    else if (e.uid, e.op) in s.gifts then
      var g := s.gifts[(e.uid, e.op)];
      if g.request != e.gift then Refused else Sent(Balance(s, e.uid, Ticket), g.recipient, g.mail)
    else if Giving(s, e) then Sent(Balance(s, e.uid, Ticket) - e.gift.quote, Recipient(s, e.gift.name), s.mails + 1)
    else Refused
  }

  /** A replay answers with the item of the first claim, if it is still there. */
  ghost function ClaimAnswer(s: Store, uid: Uid, attachment: nat): Answer {
    if !exists k :: IsAttachment(s, k, uid, attachment) then Refused
    else
      var mail := s.mailbox[MailOf(s, uid, attachment)];
      if mail.claimed.Some? then Held(ItemAt(s, uid, mail.claimed.value))
      else if Claiming(s, Event.Claim(uid, attachment)) then Held(Some(Item(NextInstance(s), mail.grant.value, false)))
      else Refused
  }

  /** The answer of a repeated delivery: the earlier mail, or a conflict when the content differs. */
  predicate IsReplay(s: Store, uid: Uid, d: Delivery, content: nat, key: Option<nat>) {
    exists k <- s.mailbox :: s.mailbox[k].uid == uid && s.mailbox[k].delivery == d
                             && key == if s.mailbox[k].content == content then Some(k) else None
  }

  lemma GreatestUnique(inventory: map<(Uid, nat), Item>, n: nat)
    requires IsGreatest(inventory.Keys, n)
    ensures n == GreatestInstance(inventory)
  {
    assert IsGreatest(inventory.Keys, GreatestInstance(inventory));
  }

  /** Only the inventory and the counter decide which instance id comes next. */
  lemma AllocatesAlike(s: Store, x: Store)
    requires x.inventory == s.inventory && x.instances == s.instances
    ensures NextInstance(x) == NextInstance(s) && (CanAllocate(x) <==> CanAllocate(s))
  {
  }

  class StoreFile {
    var names: map<Uid, string>
    var wallets: map<(Uid, Currency), nat>
    var inventory: map<(Uid, nat), Item>
    var instances: nat
    var catalog: map<nat, Record>
    var offers: map<nat, Offer>
    var permanent: set<nat>
    var purchases: map<(Uid, Op), Purchase>
    var gifts: map<(Uid, Op), Gift>
    var mailbox: map<nat, Mail>
    var mails: nat
    var attachments: nat

    ghost function View(): Store
      reads this
    {
      Store(names, wallets, inventory, instances, catalog, offers, permanent,
            purchases, gifts, mailbox, mails, attachments)
    }

    // -------------------------------------------------------------- transactions

    method Begin() returns (saved: Store)
      ensures saved == View()
    {
      saved := Store(names, wallets, inventory, instances, catalog, offers, permanent, purchases, gifts, mailbox, mails,
                     attachments);
    }

    /** Undo every write of the transaction. */
    method Rollback(saved: Store)
      modifies this`wallets, this`inventory, this`instances, this`mailbox, this`mails, this`attachments
      ensures View() == old(View()).(wallets := saved.wallets, inventory := saved.inventory,
                                     instances := saved.instances,
                                     mailbox := saved.mailbox, mails := saved.mails, attachments := saved.attachments)
    {
      wallets, inventory, instances := saved.wallets, saved.inventory, saved.instances;
      mailbox, mails, attachments := saved.mailbox, saved.mails, saved.attachments;
    }

    // -------------------------------------------------------------- reads and writes of single tables

    method ReadBalance(uid: Uid, c: Currency) returns (value: nat)
      ensures value == Balance(View(), uid, c)
    {
      value := if (uid, c) in wallets then wallets[(uid, c)] else 0;
    }

    method ReadItem(uid: Uid, instance: nat) returns (item: Option<Item>)
      ensures item == ItemAt(View(), uid, instance)
    {
      item := if (uid, instance) in inventory then Some(inventory[(uid, instance)]) else None;
    }

    method DebitLocked(uid: Uid, c: Currency, cost: nat) returns (left: Option<nat>)
      modifies this`wallets
      ensures left.Some? <==> Balance(old(View()), uid, c) >= cost
      ensures left.Some? ==>
        && left.value == Balance(old(View()), uid, c) - cost
        && View() == old(View()).(wallets := old(View()).wallets[(uid, c) := left.value])
      ensures left.None? ==> View() == old(View())
    {
      var value := if (uid, c) in wallets then wallets[(uid, c)] else 0;
      if value < cost {
        return None;
      }
      wallets := wallets[(uid, c) := value - cost];
      left := Some(value - cost);
    }

    /** The greatest instance id of any player. */
    method FindGreatest() returns (n: nat)
      ensures n == GreatestInstance(inventory)
    {
      n := 0;
      var left: set<(Uid, nat)>, done: set<(Uid, nat)> := inventory.Keys, {};
      while left != {}
        invariant left + done == inventory.Keys && IsGreatest(done, n)
        decreases |left|
      {
        var k: (Uid, nat) :| k in left;
        if k.1 > n {
          n := k.1;
        }
        left, done := left - {k}, done + {k};
      }
      assert done == inventory.Keys;
      GreatestUnique(inventory, n);
    }

    method AllocateInstance() returns (instance: Option<nat>)
      modifies this`instances
      ensures instance.Some? <==> CanAllocate(old(View()))
      ensures instance.Some? ==>
        instance.value == NextInstance(old(View())) && View() == old(View()).(instances := instance.value)
      ensures instance.None? ==> View() == old(View())
    {
      var greatest := FindGreatest();
      var value := Greater(INSTANCE_FLOOR, Greater(greatest, instances)) + 1;
      if value >= INSTANCE_LIMIT {
        return None;
      }
      instances := value;
      instance := Some(value);
    }

    method InsertItem(uid: Uid, item: Item)
      modifies this`inventory
      ensures View() == old(View()).(inventory := old(View()).inventory[(uid, item.instance) := item])
    {
      inventory := inventory[(uid, item.instance) := item];
    }

    method RecordPurchase(uid: Uid, op: Op, p: Purchase)
      modifies this`purchases
      ensures View() == old(View()).(purchases := old(View()).purchases[(uid, op) := p])
    {
      purchases := purchases[(uid, op) := p];
    }

    method RecordGift(uid: Uid, op: Op, g: Gift)
      modifies this`gifts
      ensures View() == old(View()).(gifts := old(View()).gifts[(uid, op) := g])
    {
      gifts := gifts[(uid, op) := g];
    }

    method InsertMail(uid: Uid, d: Delivery, content: nat, grant: Option<Grant>)
      modifies this`mailbox, this`mails, this`attachments
      ensures View() == Posted(old(View()), uid, d, content, grant)
    {
      var attachment := if grant.Some? then Greater(attachments, ATTACHMENT_FLOOR) + 1 else 0;
      mails, attachments := mails + 1, if grant.Some? then attachment else attachments;
      mailbox := mailbox[mails := Mail(uid, d, content, grant, attachment, None, false)];
    }

    // -------------------------------------------------------------- purchases

    /** The price, if the offer is current and the request names exactly its terms. */
    method CheckOffer(uid: Uid, q: Request) returns (ok: bool)
      ensures ok == (OfferCurrent(View(), q.key, false) && RequestMatches(uid, q, offers[q.key].record)
                     && |ItemsOf(inventory, uid)| < INVENTORY_LIMIT)
    {
      ok := q.key in offers && q.key in catalog && catalog[q.key] == offers[q.key].record
            && Sellable(offers[q.key].record, false) && RequestMatches(uid, q, offers[q.key].record)
            && |ItemsOf(inventory, uid)| < INVENTORY_LIMIT;
    }

    /** Debit, allocate, insert and record; the transaction is rolled back when no id is left. */
    method BuyLocked(uid: Uid, op: Op, q: Request) returns (answer: Answer)
      requires (uid, op) !in purchases && OpSound(op) && OfferCurrent(View(), q.key, false)
      requires RequestMatches(uid, q, offers[q.key].record) && |ItemsOf(inventory, uid)| < INVENTORY_LIMIT
      modifies this
      ensures View() == Step(old(View()), Event.Buy(uid, op, q)) && answer == BuyAnswer(old(View()), uid, op, q)
    {
      assert q.key in offers;
      hide NextInstance, CanAllocate, ItemsOf, Sellable, Price, CurrencyOf, Balance,
        OfferCurrent, RequestMatches, OpSound;
      ghost var s := View();
      var saved := Begin();
      var r, grant, lasting := offers[q.key].record, offers[q.key].grant, q.key in permanent;
      var left := DebitLocked(uid, CurrencyOf(r), Price(r, false));
      if left.None? {
        return Refused;
      }
      AllocatesAlike(s, View());
      var instance := AllocateInstance();
      if instance.None? {
        Rollback(saved);
        return Refused;
      }
      var item := Item(instance.value, grant, lasting);
      InsertItem(uid, item);
      RecordPurchase(uid, op, Purchase(q, left.value, item, r));
      answer := Sold(CurrencyOf(r), left.value, Some(item));
    }

    /** A purchase: replayed from its receipt, or carried out in full, or leaving no trace. */
    method BuyItem(uid: Uid, op: Op, q: Request) returns (answer: Answer)
      modifies this
      ensures View() == Step(old(View()), Event.Buy(uid, op, q)) && answer == BuyAnswer(old(View()), uid, op, q)
    {
      hide ItemsOf, Sellable, Price, CurrencyOf, Balance, NextInstance, CanAllocate, RequestMatches, OfferCurrent;
      if !(1 <= |op| <= 128) {
        return Refused;
      }
      if (uid, op) in purchases {
        var p := purchases[(uid, op)];
        if p.request != q || !Sellable(p.record, false) {
          return Refused;
        }
        var now := ReadBalance(uid, CurrencyOf(p.record));
        var found := ReadItem(uid, p.item.instance);
        return Sold(CurrencyOf(p.record), now, found);
      }
      var ok := CheckOffer(uid, q);
      if !ok {
        return Refused;
      }
      answer := BuyLocked(uid, op, q);
    }

    // -------------------------------------------------------------- mail and gifts

    /** Shared insertion: an earlier delivery of the same identity answers for itself, if its content is the same. */
    method DeliverLocked(uid: Uid, d: Delivery, content: nat, grant: Option<Grant>) returns (key: Option<nat>)
      modifies this
      ensures Delivered(old(View()), uid, d) || !MailRoom(old(View()), uid, grant) ==> View() == old(View())
      ensures Delivered(old(View()), uid, d) ==> IsReplay(old(View()), uid, d, content, key)
      ensures !Delivered(old(View()), uid, d) && !MailRoom(old(View()), uid, grant) ==> key.None?
      ensures !Delivered(old(View()), uid, d) && MailRoom(old(View()), uid, grant) ==>
        View() == Posted(old(View()), uid, d, content, grant) && key == Some(old(mails) + 1)
    {
      hide Posted, MailRoom;
      if k :| k in mailbox && mailbox[k].uid == uid && mailbox[k].delivery == d {
        assert Delivered(View(), uid, d);
        return if mailbox[k].content == content then Some(k) else None;
      }
      assert !Delivered(View(), uid, d);
      var room := CheckRoom(uid, grant);
      if !room {
        return None;
      }
      key := Some(mails + 1);
      InsertMail(uid, d, content, grant);
    }

    method CheckRoom(uid: Uid, grant: Option<Grant>) returns (ok: bool)
      ensures ok == MailRoom(View(), uid, grant)
    {
      ok := uid in names && |PendingOf(mailbox, uid)| < MAILBOX_LIMIT && mails + 1 < KEY_LIMIT
            && (grant.Some? ==> grant.value.mailable && Greater(attachments, ATTACHMENT_FLOOR) + 1 < KEY_LIMIT);
    }

    method PostMail(uid: Uid, id: string, content: nat, grant: Option<Grant>) returns (key: Option<nat>)
      modifies this
      ensures View() == Step(old(View()), Event.Post(uid, id, content, grant))
      ensures var s := old(View());
        if Delivered(s, uid, ByAdmin(id)) then IsReplay(s, uid, ByAdmin(id), content, key)
        else key == if MailRoom(s, uid, grant) then Some(s.mails + 1) else None
    {
      hide IsReplay, Posted, MailRoom, Delivered;
      key := DeliverLocked(uid, ByAdmin(id), content, grant);
    }

    method FindRecipient(name: string) returns (found: Option<Uid>)
      ensures found.Some? <==> |Named(View(), name)| == 1
      ensures found.Some? ==> found.value == Recipient(View(), name) && Named(View(), name) == {found.value}
    {
      var all := set u | u in names && names[u] == name;
      assert all == Named(View(), name);
      if |all| != 1 {
        return None;
      }
      var u :| u in all;
      OneRecipient(View(), name, u);
      found := Some(u);
    }

    /** Everything a new gift has to meet before mail is written. */
    method CheckGift(uid: Uid, op: Op, q: GiftRequest) returns (target: Option<Uid>)
      requires q.sound && OpSound(op) && (uid, op) !in gifts
      ensures target.Some? <==>
        && |Named(View(), q.name)| == 1 && Recipient(View(), q.name) != uid && q.hint in {0, Recipient(View(), q.name)}
        && OfferCurrent(View(), q.key, true) && q.quote == Price(offers[q.key].record, true)
      ensures target.Some? ==> target.value == Recipient(View(), q.name) && Named(View(), q.name) == {target.value}
    {
      hide Recipient, Named;
      var found := FindRecipient(q.name);
      if found.None? || found.value == uid || (q.hint != 0 && q.hint != found.value) {
        return None;
      }
      if q.key !in offers || q.key !in catalog || catalog[q.key] != offers[q.key].record
         || !Sellable(offers[q.key].record, true) || q.quote != Price(offers[q.key].record, true) {
        return None;
      }
      target := found;
    }

    /** Deliver, debit and record; the mail is rolled back when the wallet cannot pay. */
    method GiveLocked(uid: Uid, op: Op, q: GiftRequest, content: nat, target: Uid) returns (answer: Answer)
      requires GiftsReceipted(View()) && q.sound && OpSound(op) && (uid, op) !in gifts
      requires |Named(View(), q.name)| == 1 && target == Recipient(View(), q.name) && Named(View(), q.name) == {target}
      requires target != uid && q.hint in {0, target} && OfferCurrent(View(), q.key, true)
      requires q.quote == Price(offers[q.key].record, true)
      modifies this
      ensures View() == Step(old(View()), Event.Give(uid, op, q, content))
      ensures answer == GiveAnswer(old(View()), Event.Give(uid, op, q, content))
    {
      ghost var s := View();
      NotYetDelivered(s, target, uid, op);
      assert q.key in offers;
      hide Posted, MailRoom, Delivered, Named, Recipient, Balance, Price, OfferCurrent, GiftsReceipted, OpSound;
      var saved := Begin();
      var grant := offers[q.key].grant;
      var mail := DeliverLocked(target, ByGift(uid, op), content, Some(grant));
      if mail.None? {
        return Refused;
      }
      PostedWallet(s, target, ByGift(uid, op), content, Some(grant), uid);
      var left := DebitLocked(uid, Ticket, q.quote);
      if left.None? {
        Rollback(saved);
        return Refused;
      }
      RecordGift(uid, op, Gift(q, target, mail.value));
      answer := Sent(left.value, target, mail.value);
    }

    method GiveItem(uid: Uid, op: Op, q: GiftRequest, content: nat) returns (answer: Answer)
      requires GiftsReceipted(View())
      modifies this
      ensures View() == Step(old(View()), Event.Give(uid, op, q, content))
      ensures answer == GiveAnswer(old(View()), Event.Give(uid, op, q, content))
    {
      hide Balance, Price, OfferCurrent, GiftsReceipted, MailRoom, Delivered, Named, Recipient, Given;
      if !q.sound || !(1 <= |op| <= 128) {
        return Refused;
      }
      if (uid, op) in gifts {
        var g := gifts[(uid, op)];
        if g.request != q {
          return Refused;
        }
        var now := ReadBalance(uid, Ticket);
        return Sent(now, g.recipient, g.mail);
      }
      var target := CheckGift(uid, op, q);
      if target.None? {
        return Refused;
      }
      answer := GiveLocked(uid, op, q, content, target.value);
    }

    // -------------------------------------------------------------- claims

    /** An item the service gives out by itself. */
    method AwardItem(uid: Uid, grant: Grant, lasting: bool, capped: bool) returns (item: Option<Item>)
      modifies this
      ensures View() == Step(old(View()), Event.Award(uid, grant, lasting, capped))
      ensures item == if Awards(old(View()), uid, capped) then Some(Item(NextInstance(old(View())), grant, lasting))
                      else None
    {
      hide NextInstance, CanAllocate, ItemsOf;
      if capped && |ItemsOf(inventory, uid)| >= INVENTORY_LIMIT {
        return None;
      }
      var instance := AllocateInstance();
      if instance.None? {
        return None;
      }
      InsertItem(uid, Item(instance.value, grant, lasting));
      item := Some(Item(instance.value, grant, lasting));
    }

    /** The mail of an attachment, if this player has one. */
    method FindMail(uid: Uid, attachment: nat) returns (found: Option<nat>)
      ensures found.Some? <==> exists k :: IsAttachment(View(), k, uid, attachment)
      ensures found.Some? ==> IsAttachment(View(), found.value, uid, attachment)
    {
      if k :| k in mailbox && mailbox[k].uid == uid && mailbox[k].attachment == attachment && attachment != 0 {
        assert IsAttachment(View(), k, uid, attachment);
        return Some(k);
      }
      found := None;
    }

    /** Allocate, insert and mark; nothing is written when no id is left. */
    method ClaimLocked(k: nat, uid: Uid) returns (item: Option<Item>)
      requires k in mailbox && mailbox[k].grant.Some?
      modifies this
      ensures item.Some? <==> CanAllocate(old(View()))
      ensures item.Some? ==>
        && View() == Claimed(old(View()), k, uid)
        && item.value == Item(NextInstance(old(View())), old(mailbox)[k].grant.value, false)
      ensures item.None? ==> View() == old(View())
    {
      hide NextInstance, CanAllocate;
      var instance := AllocateInstance();
      if instance.None? {
        return None;
      }
      var record := Item(instance.value, mailbox[k].grant.value, false);
      InsertItem(uid, record);
      mailbox := mailbox[k := mailbox[k].(claimed := instance)];
      item := Some(record);
    }

    /** The mail of a new claim, or the answer of one that is replayed or refused. */
    method CheckClaim(uid: Uid, attachment: nat) returns (k: nat, answer: Option<Answer>)
      requires MailSound(View())
      ensures answer.Some? ==>
        && (!Claiming(View(), Event.Claim(uid, attachment)) || !CanAllocate(View()))
        && answer.value == ClaimAnswer(View(), uid, attachment)
      ensures answer.None? ==>
        && IsAttachment(View(), k, uid, attachment) && k == MailOf(View(), uid, attachment)
        && mailbox[k].grant.Some? && mailbox[k].claimed.None?
        && (Claiming(View(), Event.Claim(uid, attachment)) <==> CanAllocate(View()))
    {
      hide NextInstance, CanAllocate, ItemsOf, MailSound, IsAttachment;
      var found := FindMail(uid, attachment);
      if found.None? {
        return 0, Some(Refused);
      }
      k := found.value;
      OneMail(View(), k, MailOf(View(), uid, attachment), uid, attachment);
      KnownMail(View(), k, uid, attachment);
      var mail := mailbox[k];
      if mail.claimed.Some? {
        var item := ReadItem(uid, mail.claimed.value);
        return k, Some(Held(item));
      }
      if mail.deleted || mail.grant.None? || |ItemsOf(inventory, uid)| >= INVENTORY_LIMIT {
        return k, Some(Refused);
      }
      answer := None;
    }

    /** A claim: replayed from the mail's mark, or carried out in full, or refused. */
    method ClaimAttachment(uid: Uid, attachment: nat) returns (answer: Answer)
      requires MailSound(View())
      modifies this
      ensures View() == Step(old(View()), Event.Claim(uid, attachment))
      ensures answer == ClaimAnswer(old(View()), uid, attachment)
    {
      hide NextInstance, ItemsOf, MailSound, Claimed, Claims;
      var k, early := CheckClaim(uid, attachment);
      hide CanAllocate;
      if early.Some? {
        ClaimNeedsId(View(), Event.Claim(uid, attachment));
        return early.value;
      }
      KnownMail(View(), k, uid, attachment);
      var item := ClaimLocked(k, uid);
      answer := if item.Some? then Held(item) else Refused;
    }

    method RemoveMail(uid: Uid, k: nat) returns (ok: bool)
      modifies this
      ensures View() == Step(old(View()), Event.Remove(uid, k))
      ensures ok <==> k in old(mailbox) && old(mailbox)[k].uid == uid
    {
      ok := k in mailbox && mailbox[k].uid == uid;
      if ok {
        mailbox := mailbox[k := mailbox[k].(deleted := true)];
      }
    }
  }

  lemma ClaimNeedsId(s: Store, e: Event)
    requires e.Claim?
    ensures Claiming(s, e) ==> CanAllocate(s)
  {
  }

  /** Posting mail touches neither wallets nor items. */
  lemma PostedWallet(s: Store, target: Uid, d: Delivery, content: nat, grant: Option<Grant>, uid: Uid)
    ensures var x := Posted(s, target, d, content, grant);
      && Balance(x, uid, Ticket) == Balance(s, uid, Ticket)
      && x == s.(mailbox := x.mailbox, mails := x.mails, attachments := x.attachments)
  {
  }

  lemma NotYetDelivered(s: Store, target: Uid, uid: Uid, op: Op)
    requires GiftsReceipted(s) && (uid, op) !in s.gifts
    ensures !Delivered(s, target, ByGift(uid, op))
  {
  }

  lemma OneRecipient(s: Store, name: string, u: Uid)
    requires |Named(s, name)| == 1 && u in Named(s, name)
    ensures u == Recipient(s, name) && Named(s, name) == {u}
  {
    var v := Recipient(s, name);
    assert |Named(s, name) - {u}| == 0;
    assert u != v ==> v in Named(s, name) - {u};
  }

  lemma KnownMail(s: Store, k: nat, uid: Uid, attachment: nat)
    requires IsAttachment(s, k, uid, attachment)
    ensures k in s.mailbox
  {
  }
}
