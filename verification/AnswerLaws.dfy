/**
 * What the store answers, read off the store the call leaves behind. The same statement covers a call that is
 * carried out now and the repeat of one that was carried out before.
 */
module AnswerLaws {
  import opened Commerce
  import opened CommerceStore
  import opened CommerceLaws

  /** Does the store still list this item for the player, and as what? */
  ghost predicate Shows(x: Store, uid: Uid, instance: nat, item: Option<Item>) {
    if (uid, instance) in x.inventory then item == Some(x.inventory[(uid, instance)]) else item == None
  }

  /** A receipt of this request that may be answered from. */
  ghost predicate Receipt(x: Store, uid: Uid, op: Op, q: Request) {
    && 1 <= |op| <= 128 && (uid, op) in x.purchases && x.purchases[(uid, op)].request == q
    && OnOffer(x.purchases[(uid, op)].record, false)
  }

  /** A purchase is answered exactly from its receipt: currency, what is left in that wallet, and the item bought. */
  lemma BuyAnswers(s: Store, uid: Uid, op: Op, q: Request)
    ensures var x, a := Step(s, Buy(uid, op, q)), BuyAnswer(s, uid, op, q);
      && (!Receipt(x, uid, op, q) ==> a == Refused && x == s)
      && (Receipt(x, uid, op, q) ==>
            var p := x.purchases[(uid, op)];
            && a.Sold? && (a.currency == Gold <==> p.record.gold != 0) && a.left == Purse(x, uid, p.record.gold != 0)
            && Shows(x, uid, p.item.instance, a.item))
  {
    if (uid, op) in s.purchases {
      OnOfferIff(s.purchases[(uid, op)].record, false);
    }
    if q.key in s.offers {
      OnOfferIff(s.offers[q.key].record, false);
    }
    hide OnOffer, Sellable, Price, NextInstance, CanAllocate;
  }

  ghost predicate GiftReceipt(x: Store, uid: Uid, op: Op, q: GiftRequest) {
    q.sound && 1 <= |op| <= 128 && (uid, op) in x.gifts && x.gifts[(uid, op)].request == q
  }

  /** A gift is answered exactly from its receipt: the tickets left, the recipient and the mail. */
  lemma GiveAnswers(s: Store, uid: Uid, op: Op, q: GiftRequest, content: nat)
    ensures var e := Give(uid, op, q, content); var x, a := Step(s, e), GiveAnswer(s, e);
      && (!GiftReceipt(x, uid, op, q) ==> a == Refused && x == s)
      && (GiftReceipt(x, uid, op, q) ==>
            a == Sent(Purse(x, uid, false), x.gifts[(uid, op)].recipient, x.gifts[(uid, op)].mail))
  {
    hide OfferCurrent, MailRoom, Delivered, Named, Price;
  }

  /** The player's mail with this attachment was claimed under this id. */
  ghost predicate TakenAs(x: Store, k: nat, uid: Uid, attachment: nat, instance: nat) {
    && k in x.mailbox && x.mailbox[k].uid == uid && x.mailbox[k].attachment == attachment && attachment != 0
    && x.mailbox[k].claimed == Some(instance)
  }

  lemma MarksAreAttachments(s: Store, uid: Uid, attachment: nat, k: nat, i: nat)
    requires TakenAs(Step(s, Claim(uid, attachment)), k, uid, attachment, i)
    ensures IsAttachment(s, k, uid, attachment)
  {
    hide NextInstance, CanAllocate, ItemsOf;
  }

  /** The one mail of an attachment stays it, and is claimed afterwards exactly when the claim has an answer. */
  lemma ClaimMarks(s: Store, uid: Uid, attachment: nat)
    requires MailSound(s) && exists k :: IsAttachment(s, k, uid, attachment)
    ensures var x, a, k := Step(s, Claim(uid, attachment)), ClaimAnswer(s, uid, attachment), MailOf(s, uid, attachment);
      && k in x.mailbox && (x.mailbox[k].claimed.None? ==> a == Refused && x == s)
      && (x.mailbox[k].claimed.Some? ==>
            TakenAs(x, k, uid, attachment, x.mailbox[k].claimed.value) && a.Held?
            && Shows(x, uid, x.mailbox[k].claimed.value, a.item))
  {
    assert IsAttachment(s, MailOf(s, uid, attachment), uid, attachment);
    hide NextInstance, CanAllocate, ItemsOf, MailSound;
  }

  /** A claim is answered exactly from the mail's mark, with the item of that id. */
  lemma ClaimAnswers(s: Store, uid: Uid, attachment: nat)
    requires MailSound(s)
    ensures var x, a := Step(s, Claim(uid, attachment)), ClaimAnswer(s, uid, attachment);
      && ((forall k, i :: !TakenAs(x, k, uid, attachment, i)) ==> a == Refused && x == s)
      && forall k, i :: TakenAs(x, k, uid, attachment, i) ==> a.Held? && Shows(x, uid, i, a.item)
  {
    var x, a := Step(s, Claim(uid, attachment)), ClaimAnswer(s, uid, attachment);
    if exists k :: IsAttachment(s, k, uid, attachment) {
      ClaimMarks(s, uid, attachment);
      hide Step, ClaimAnswer, Shows;
      forall k, i | TakenAs(x, k, uid, attachment, i)
        ensures a.Held? && Shows(x, uid, i, a.item)
      {
        MarksAreAttachments(s, uid, attachment, k, i);
        assert IsAttachment(s, MailOf(s, uid, attachment), uid, attachment);
        assert k == MailOf(s, uid, attachment);
      }
    } else {
      assert a == Refused && x == s;
      hide Step, ClaimAnswer, Shows;
      forall k, i
        ensures !TakenAs(s, k, uid, attachment, i)
      {
        assert !IsAttachment(s, k, uid, attachment);
      }
    }
  }

  /** A repeat at once is answered as the call itself was, and changes nothing. */
  lemma RepeatsAnswerAlike(s: Store, uid: Uid, op: Op, q: Request)
    ensures var e := Buy(uid, op, q); var x := Step(s, e);
      Step(x, e) == x && BuyAnswer(x, uid, op, q) == BuyAnswer(s, uid, op, q)
  {
    var e := Buy(uid, op, q);
    var x := Step(s, e);
    BuyAnswers(s, uid, op, q);
    assert Step(x, e) == x by {
      if Buying(s, e) {
        assert (uid, op) in x.purchases;
      } else {
        assert x == s;
      }
    }
    BuyAnswers(x, uid, op, q);
    hide BuyAnswer, Buys, Bought, OnOffer, Step;
  }
}
