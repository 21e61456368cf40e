/** What each call on the store does, said of record, wallet and inventory fields without the pricing functions. */
module CommerceLaws {
  import opened Commerce

  // ---------------------------------------------------------------- prices

  /**
   * The price of a record. Without a sale it is the base price; on sale a gift costs exactly the current price, and a
   * purchase costs the base or the current price, whichever is not above the other.
   */
  ghost predicate Costs(r: Record, gift: bool, p: nat) {
    && (!r.sale && r.gold != 0 ==> p == r.gold)
    && (!r.sale && r.gold == 0 ==> p == r.ticket)
    && (r.sale && gift ==> p == if r.gold != 0 then r.goldNow else r.ticketNow)
    && (r.sale && !gift && r.gold != 0 ==> p <= r.gold && p <= r.goldNow && (p == r.gold || p == r.goldNow))
    && (r.sale && !gift && r.gold == 0 ==> p <= r.ticket && p <= r.ticketNow && (p == r.ticket || p == r.ticketNow))
  }

  lemma PriceCosts(r: Record, gift: bool)
    ensures forall p: nat :: Costs(r, gift, p) <==> p == Price(r, gift)
  {
  }

  /** A record that may be sold: in one currency, every price within native arithmetic, gifts for tickets only. */
  ghost predicate OnOffer(r: Record, gift: bool) {
    && r.open_ && (r.gold != 0 ==> r.ticket == r.ticketNow == 0 && r.gold <= 21474836)
    && (r.gold == 0 ==> r.goldNow == 0 && 0 < r.ticket <= 21474836)
    && (exists p: nat :: Costs(r, gift, p) && 0 < p <= 21474836)
    && (gift ==> r.gold == 0)
  }

  lemma OnOfferIff(r: Record, gift: bool)
    ensures Sellable(r, gift) <==> OnOffer(r, gift)
  {
    PriceCosts(r, gift);
    if Sellable(r, gift) {
      assert Costs(r, gift, Price(r, gift));
    }
  }

  function Purse(s: Store, uid: Uid, gold: bool): nat {
    var c := if gold then Gold else Ticket;
    if (uid, c) in s.wallets then s.wallets[(uid, c)] else 0
  }

  // ---------------------------------------------------------------- ids

  /** The least number above the floor, the counter and every id that is held. */
  ghost predicate IsNext(s: Store, n: nat) {
    && n > 0xf_ffff && n > s.instances && (forall k <- s.inventory :: k.1 < n)
    && (n == 0x10_0000 || n == s.instances + 1 || exists k <- s.inventory :: n == k.1 + 1)
  }

  lemma NextIsNext(s: Store)
    ensures forall n: nat :: IsNext(s, n) <==> n == NextInstance(s)
  {
    var m := GreatestInstance(s.inventory);
    assert AboveAll(s.inventory, m) && IsGreatest(s.inventory.Keys, m);
    assert forall k :: k in s.inventory <==> k in s.inventory.Keys;
    hide GreatestInstance;
    forall n: nat | IsNext(s, n)
      ensures n == NextInstance(s)
    {
      if m > 0 {
        var k :| k in s.inventory.Keys && k.1 == m;
      }
    }
    assert IsNext(s, NextInstance(s));
  }

  ghost predicate IdLeft(s: Store) { exists n: nat :: IsNext(s, n) && n < 0xffff_ffff }

  lemma IdLeftIff(s: Store)
    ensures IdLeft(s) <==> CanAllocate(s)
  {
    NextIsNext(s);
    hide IsNext;
    assert IsNext(s, NextInstance(s));
  }

  ghost predicate HasPlace(s: Store, uid: Uid) { |set k | k in s.inventory && k.0 == uid| < 8000 }

  lemma HasPlaceIff(s: Store, uid: Uid)
    ensures HasPlace(s, uid) <==> |ItemsOf(s.inventory, uid)| < INVENTORY_LIMIT
  {
    assert ItemsOf(s.inventory, uid) == set k | k in s.inventory && k.0 == uid;
  }

  // ---------------------------------------------------------------- purchases

  ghost predicate Listed(s: Store, key: nat, gift: bool) {
    key in s.offers && key in s.catalog && s.catalog[key] == s.offers[key].record && OnOffer(s.offers[key].record, gift)
  }

  /** A request in the buyer's own name that quotes this price in the record's currency and nothing besides. */
  ghost predicate Quotes(uid: Uid, q: Request, r: Record, p: nat) {
    && q.sender == uid && q.buyer == uid && !q.extras
    && (r.gold != 0 ==> q.code == 111 && q.gold == p && q.ticket == 0)
    && (r.gold == 0 ==> q.code == 109 && q.gold == 0 && q.ticket == p)
  }

  ghost predicate MayBuy(s: Store, uid: Uid, op: Op, q: Request, p: nat) {
    && 1 <= |op| <= 128 && (uid, op) !in s.purchases && Listed(s, q.key, false) && HasPlace(s, uid) && IdLeft(s)
    && Costs(s.offers[q.key].record, false, p) && Quotes(uid, q, s.offers[q.key].record, p)
    && Purse(s, uid, s.offers[q.key].record.gold != 0) >= p
  }

  lemma MayBuyIff(s: Store, uid: Uid, op: Op, q: Request)
    ensures Buys(s, uid, op, q) <==> exists p: nat :: MayBuy(s, uid, op, q, p)
    ensures forall p: nat :: MayBuy(s, uid, op, q, p) ==> p == Price(s.offers[q.key].record, false)
  {
    IdLeftIff(s);
    HasPlaceIff(s, uid);
    if q.key in s.offers {
      var r := s.offers[q.key].record;
      OnOfferIff(r, false);
      PriceCosts(r, false);
      hide Costs, Price, OnOffer, Sellable, IdLeft, CanAllocate, HasPlace, ItemsOf;
      if Buys(s, uid, op, q) {
        assert MayBuy(s, uid, op, q, Price(r, false));
      }
    }
  }

  /**
   * A purchase takes exactly the price out of the buyer's wallet and puts the offered item, made permanent where the
   * policy says so, under the next id; any other call of this kind changes nothing.
   */
  lemma BuyingPays(s: Store, uid: Uid, op: Op, q: Request)
    ensures var x := Step(s, Buy(uid, op, q));
      && (!(exists p: nat :: MayBuy(s, uid, op, q, p)) ==> x == s)
      && forall p: nat :: MayBuy(s, uid, op, q, p) ==>
           var r := s.offers[q.key].record;
           var c, left := if r.gold != 0 then Gold else Ticket, Purse(s, uid, r.gold != 0) - p;
           var item := Item(x.instances, s.offers[q.key].grant, q.key in s.permanent);
           && IsNext(s, x.instances)
           && x == s.(wallets := s.wallets[(uid, c) := left], instances := x.instances,
                      inventory := s.inventory[(uid, x.instances) := item],
                      purchases := s.purchases[(uid, op) := Purchase(q, left, item, r)])
  {
    MayBuyIff(s, uid, op, q);
    NextIsNext(s);
    hide MayBuy, Buys, IsNext, NextInstance, Price;
  }

  // ---------------------------------------------------------------- mail

  ghost predicate MailFits(s: Store, target: Uid, grant: Option<Grant>) {
    && target in s.names && |set k | k in s.mailbox && s.mailbox[k].uid == target && !s.mailbox[k].deleted| < 2048
    && s.mails + 1 < 0x1_0000_0000
    && (grant.Some? ==> grant.value.mailable && s.attachments + 1 < 0x1_0000_0000)
  }

  lemma MailFitsIff(s: Store, target: Uid, grant: Option<Grant>)
    ensures MailFits(s, target, grant) <==> MailRoom(s, target, grant)
  {
    assert PendingOf(s.mailbox, target)
        == set k | k in s.mailbox && s.mailbox[k].uid == target && !s.mailbox[k].deleted;
  }

  /** One new mail, the next, with at most one new attachment, above the floor and the counter. */
  ghost predicate NewMail(s: Store, target: Uid, d: Delivery, content: nat, grant: Option<Grant>, x: Store) {
    && x.mails == s.mails + 1
    && (grant.None? ==> x.attachments == s.attachments)
    && (grant.Some? ==> x.attachments == if s.attachments > 0x20_0000 then s.attachments + 1 else 0x20_0001)
    && x.mailbox == s.mailbox[x.mails := Mail(target, d, content, grant,
                                              if grant.Some? then x.attachments else 0, None, false)]
  }

  lemma PostedNew(s: Store, target: Uid, d: Delivery, content: nat, grant: Option<Grant>)
    ensures NewMail(s, target, d, content, grant, Posted(s, target, d, content, grant))
    ensures var x := Posted(s, target, d, content, grant);
      x == s.(mails := x.mails, attachments := x.attachments, mailbox := x.mailbox)
  {
  }

  ghost predicate Undelivered(s: Store, target: Uid, d: Delivery) {
    forall k <- s.mailbox :: s.mailbox[k].uid == target ==> s.mailbox[k].delivery != d
  }

  /** An administrative delivery posts one mail, once. */
  lemma PostingPosts(s: Store, uid: Uid, id: string, content: nat, grant: Option<Grant>)
    ensures var x := Step(s, Post(uid, id, content, grant));
      var ok := Undelivered(s, uid, ByAdmin(id)) && MailFits(s, uid, grant);
      && (!ok ==> x == s)
      && (ok ==>
            && NewMail(s, uid, ByAdmin(id), content, grant, x)
            && x == s.(mails := x.mails, attachments := x.attachments, mailbox := x.mailbox))
  {
    MailFitsIff(s, uid, grant);
    PostedNew(s, uid, ByAdmin(id), content, grant);
    hide MailFits, MailRoom, Posted, NewMail;
  }

  ghost predicate OnlyOne(s: Store, name: string, target: Uid) {
    forall u :: u in s.names && s.names[u] == name <==> u == target
  }

  lemma OnlyOneIff(s: Store, name: string, target: Uid)
    ensures OnlyOne(s, name, target) <==> Named(s, name) == {target}
    ensures Named(s, name) == {target} ==> |Named(s, name)| == 1 && Recipient(s, name) == target
  {
    assert forall u :: u in Named(s, name) <==> u in s.names && s.names[u] == name;
    hide Named;
    if OnlyOne(s, name, target) {
      assert forall u :: u in Named(s, name) <==> u in {target};
      assert Named(s, name) == {target};
    }
  }

  ghost predicate MayGive(s: Store, uid: Uid, op: Op, q: GiftRequest, target: Uid) {
    && 1 <= |op| <= 128 && q.sound && (uid, op) !in s.gifts && OnlyOne(s, q.name, target) && target != uid
    && (q.hint == 0 || q.hint == target) && Listed(s, q.key, true) && Costs(s.offers[q.key].record, true, q.quote)
    && Undelivered(s, target, ByGift(uid, op)) && MailFits(s, target, Some(s.offers[q.key].grant))
    && Purse(s, uid, false) >= q.quote
  }

  lemma MayGiveIff(s: Store, uid: Uid, op: Op, q: GiftRequest, target: Uid, content: nat)
    ensures Gives(s, uid, op, q, target, content) <==> MayGive(s, uid, op, q, target)
  {
    OnlyOneIff(s, q.name, target);
    hide OnlyOne, Named;
    if q.key in s.offers {
      var r := s.offers[q.key].record;
      OnOfferIff(r, true);
      PriceCosts(r, true);
      MailFitsIff(s, target, Some(s.offers[q.key].grant));
      hide Costs, Price, OnOffer, Sellable, MailFits, MailRoom;
    }
  }

  /** A gift takes exactly the quoted current price in tickets, and posts the item to the one recipient. */
  lemma GivingPays(s: Store, uid: Uid, op: Op, q: GiftRequest, content: nat)
    ensures var x := Step(s, Give(uid, op, q, content));
      && ((forall target :: !MayGive(s, uid, op, q, target)) ==> x == s)
      && forall target :: MayGive(s, uid, op, q, target) ==>
           && NewMail(s, target, ByGift(uid, op), content, Some(s.offers[q.key].grant), x)
           && x == s.(wallets := s.wallets[(uid, Ticket) := Purse(s, uid, false) - q.quote],
                      mails := x.mails, attachments := x.attachments, mailbox := x.mailbox,
                      gifts := s.gifts[(uid, op) := Gift(q, target, x.mails)])
  {
    var e := Give(uid, op, q, content);
    forall target
      ensures Gives(s, uid, op, q, target, content) <==> MayGive(s, uid, op, q, target)
      ensures MayGive(s, uid, op, q, target) ==> |Named(s, q.name)| == 1 && Recipient(s, q.name) == target
    {
      MayGiveIff(s, uid, op, q, target, content);
      OnlyOneIff(s, q.name, target);
    }
    hide MayGive, Gives, Named, Recipient;
    if Giving(s, e) {
      var target := Recipient(s, q.name);
      PostedNew(s, target, ByGift(uid, op), content, Some(s.offers[q.key].grant));
    }
    hide Posted, NewMail;
  }

  // ---------------------------------------------------------------- the other calls

  /** This mail of the player brings the attachment, unclaimed and not deleted. */
  ghost predicate Brings(s: Store, k: nat, uid: Uid, attachment: nat) {
    && k in s.mailbox && s.mailbox[k].uid == uid && s.mailbox[k].attachment == attachment && attachment != 0
    && s.mailbox[k].claimed.None? && !s.mailbox[k].deleted && s.mailbox[k].grant.Some?
  }

  /** A claim puts exactly the mailed item under the next id and marks the mail with that id; otherwise nothing. */
  lemma ClaimingTakes(s: Store, uid: Uid, attachment: nat)
    requires MailSound(s)
    ensures var x := Step(s, Claim(uid, attachment));
      && ((forall k :: !Brings(s, k, uid, attachment)) || !HasPlace(s, uid) || !IdLeft(s) ==> x == s)
      && (HasPlace(s, uid) && IdLeft(s) ==> forall k :: Brings(s, k, uid, attachment) ==>
            && IsNext(s, x.instances)
            && x == s.(instances := x.instances,
                       inventory := s.inventory[(uid, x.instances) :=
                                                Item(x.instances, s.mailbox[k].grant.value, false)],
                       mailbox := s.mailbox[k := s.mailbox[k].(claimed := Some(x.instances))]))
  {
    var e := Claim(uid, attachment);
    IdLeftIff(s);
    HasPlaceIff(s, uid);
    NextIsNext(s);
    hide IsNext, NextInstance, CanAllocate, IdLeft, HasPlace, ItemsOf;
    forall k | Brings(s, k, uid, attachment)
      ensures IsAttachment(s, k, uid, attachment) && MailOf(s, uid, attachment) == k
    {
      OneMail(s, k, uid, attachment);
    }
    if Claiming(s, e) {
      assert Brings(s, MailOf(s, uid, attachment), uid, attachment);
    }
  }

  lemma OneMail(s: Store, k: nat, uid: Uid, attachment: nat)
    requires MailSound(s) && Brings(s, k, uid, attachment)
    ensures IsAttachment(s, k, uid, attachment) && MailOf(s, uid, attachment) == k
  {
    assert IsAttachment(s, k, uid, attachment);
    assert IsAttachment(s, MailOf(s, uid, attachment), uid, attachment);
  }

  /** An award puts exactly the chosen item under the next id. */
  lemma AwardingGives(s: Store, uid: Uid, grant: Grant, lasting: bool, capped: bool)
    ensures var x := Step(s, Award(uid, grant, lasting, capped));
      var ok := (capped ==> HasPlace(s, uid)) && IdLeft(s);
      && (!ok ==> x == s)
      && (ok ==>
            && IsNext(s, x.instances)
            && x == s.(instances := x.instances,
                       inventory := s.inventory[(uid, x.instances) := Item(x.instances, grant, lasting)]))
  {
    IdLeftIff(s);
    HasPlaceIff(s, uid);
    NextIsNext(s);
    hide IsNext, NextInstance, CanAllocate, IdLeft, HasPlace, ItemsOf;
  }

  /** A removal marks one mail of the player; its identity, attachment and claim stay. */
  lemma RemovingMarks(s: Store, uid: Uid, k: nat)
    ensures var x := Step(s, Event.Remove(uid, k));
      var ok := k in s.mailbox && s.mailbox[k].uid == uid;
      && (!ok ==> x == s)
      && (ok ==>
            var m := s.mailbox[k];
            x == s.(mailbox := s.mailbox[k := Mail(uid, m.delivery, m.content, m.grant, m.attachment, m.claimed,
                                                   true)]))
  {
  }

  /** A credit adds exactly its amount to one wallet, when the wallet can hold it. */
  lemma CreditingAdds(s: Store, uid: Uid, gold: bool, amount: nat)
    ensures var c := if gold then Gold else Ticket;
      Step(s, Credit(uid, c, amount))
      == if uid in s.names && Purse(s, uid, gold) + amount <= 0x7fff_ffff
         then s.(wallets := s.wallets[(uid, c) := Purse(s, uid, gold) + amount]) else s
  {
  }

  /** The catalogue, the offers and the permanence policy change under one key, and nothing else does. */
  lemma ConfiguringSets(s: Store, key: nat, record: Option<Record>, offer: Option<Offer>, permanent: bool)
    ensures var x := Step(s, Configure(key, record, offer, permanent));
      && x == s.(catalog := x.catalog, offers := x.offers, permanent := x.permanent)
      && (key in x.permanent <==> permanent) && x.permanent - {key} == s.permanent - {key}
      && (key in x.catalog <==> record.Some?) && (record.Some? ==> x.catalog[key] == record.value)
      && (key in x.offers <==> offer.Some?) && (offer.Some? ==> x.offers[key] == offer.value)
      && x.catalog - {key} == s.catalog - {key} && x.offers - {key} == s.offers - {key}
  {
  }

  // ---------------------------------------------------------------- prices over a run

  /** The call left the receipt of a purchase, or of a gift, of this player. */
  ghost predicate BoughtNow(s: Store, e: Event, x: Store, uid: Uid) {
    e.Buy? && e.uid == uid && (uid, e.op) !in s.purchases && (uid, e.op) in x.purchases
  }

  ghost predicate GaveNow(s: Store, e: Event, x: Store, uid: Uid) {
    e.Give? && e.uid == uid && (uid, e.op) !in s.gifts && (uid, e.op) in x.gifts
  }

  function CurrencyFor(r: Record): Currency { if r.gold != 0 then Gold else Ticket }

  /**
   * What is taken out of a wallet is told by the receipts: a call takes something only if it leaves a receipt, and
   * then exactly the price of the record it sold.
   */
  lemma DebitsArePrices(s: Store, e: Event, uid: Uid, c: Currency)
    ensures var x, d := Step(s, e), Debit(s, e, uid, c);
      && (BoughtNow(s, e, x, uid) ==>
            var r := x.purchases[(uid, e.op)].record;
            if c == CurrencyFor(r) then Costs(r, false, d) else d == 0)
      && (GaveNow(s, e, x, uid) ==>
            e.gift.key in s.offers
            && if c == Ticket then Costs(s.offers[e.gift.key].record, true, d) && d == e.gift.quote else d == 0)
      && (!BoughtNow(s, e, x, uid) && !GaveNow(s, e, x, uid) ==> d == 0)
  {
    hide Step, Buys, Gives, Price, CurrencyOf, Recipient, Named;
    StepReceipts(s, e);
    if Buying(s, e) {
      OfferedKey(s, e);
      BuyStep(s, e);
      PriceCosts(s.offers[e.request.key].record, false);
      SoldIn(s.offers[e.request.key].record);
    } else if Giving(s, e) {
      GiveStep(s, e);
      PriceCosts(s.offers[e.gift.key].record, true);
      QuotedPrice(s, e);
    } else {
      NotCarriedOut(s, e);
    }
    hide Costs;
  }

  lemma OfferedKey(s: Store, e: Event)
    requires Buying(s, e)
    ensures e.request.key in s.offers
  {
  }

  lemma SoldIn(r: Record)
    ensures CurrencyOf(r) == CurrencyFor(r)
  {
  }

  lemma QuotedPrice(s: Store, e: Event)
    requires Giving(s, e)
    ensures e.gift.key in s.offers && e.gift.quote == Price(s.offers[e.gift.key].record, true)
  {
    hide Recipient, MailRoom, Delivered;
  }

  lemma NotCarriedOut(s: Store, e: Event)
    requires !Buying(s, e) && !Giving(s, e)
    ensures Step(s, e).purchases == s.purchases && Step(s, e).gifts == s.gifts
  {
    if Claiming(s, e) {
      ClaimStep(s, e);
    } else {
      OtherStep(s, e);
    }
    hide Step, Claiming, MailOf, NextInstance, IsAttachment, Posted;
  }

  /** The wallet after a run, from its start, the credits, and the prices of what the receipts show was sold. */
  ghost function Spent(start: Store, events: seq<Event>, uid: Uid, c: Currency): nat {
    if events == [] then 0
    else
      var s, e := Run(start, events[..|events| - 1]), events[|events| - 1];
      var x := Step(s, e);
      Spent(start, events[..|events| - 1], uid, c) + SpentBy(s, e, x, uid, c)
  }

  ghost function SpentBy(s: Store, e: Event, x: Store, uid: Uid, c: Currency): nat {
    if BoughtNow(s, e, x, uid) && c == CurrencyFor(x.purchases[(uid, e.op)].record) then
      var r := x.purchases[(uid, e.op)].record;
      var (base, now) := if r.gold != 0 then (r.gold, r.goldNow) else (r.ticket, r.ticketNow);
      if r.sale && now < base then now else base
    else if GaveNow(s, e, x, uid) && c == Ticket then e.gift.quote
    else 0
  }

  lemma SpentIsDebit(s: Store, e: Event, uid: Uid, c: Currency)
    ensures SpentBy(s, e, Step(s, e), uid, c) == Debit(s, e, uid, c)
  {
    DebitsArePrices(s, e, uid, c);
    hide Step, Debit;
  }

  lemma {:induction false} WalletsTellPrices(start: Store, events: seq<Event>, uid: Uid, c: Currency)
    ensures Spent(start, events, uid, c) == Debits(start, events, uid, c)
    ensures Balance(Run(start, events), uid, c) + Spent(start, events, uid, c)
         == Balance(start, uid, c) + Incomes(start, events, uid, c)
  {
    WalletsConserved(start, events, uid, c);
    if events != [] {
      WalletsTellPrices(start, events[..|events| - 1], uid, c);
      SpentIsDebit(Run(start, events[..|events| - 1]), events[|events| - 1], uid, c);
      hide Step, Debit, SpentBy, Balance;
    }
  }
}
