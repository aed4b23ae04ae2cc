/**
  Which requests a reply becomes, and in what order they leave, streamed or in one batch
  (coke/turn/runner.py).
*/
module ReplyDelivery {
  import opened Options

  datatype TriggerType = InboundTurn | NotificationTurn | OtherTurn

  /** `recipients` is the payload's "recipient_account_ids" when it is a list; an entry of it that
      is no string is `None`. */
  datatype Trigger = Trigger(triggerType: TriggerType, account: string, recipients: Option<seq<Option<string>>>)

  /** A recorded outbound row. Ids stand for their place in the order of the stored ids. */
  datatype Message = Message(segmentIndex: Option<int>, id: nat)

  /** The parts of a delivery request that differ within one turn. */
  datatype Request = Request(account: string, key: string, text: string, messageId: Option<nat>)

  ghost predicate Distinct(xs: seq<string>) {
    forall j, k :: 0 <= j < k < |xs| ==> xs[j] != xs[k]
  }

  // ------------------------------------------------------------------------ recipients

  function NamedAccounts(raw: seq<Option<string>>): seq<string> {
    if raw == [] then []
    else
      var rest := NamedAccounts(raw[..|raw| - 1]);
      var last := raw[|raw| - 1];
      if last.Some? && last.value != "" then rest + [last.value] else rest
  }

  /** Each element once, where it first occurs. */
  function FirstOccurrences(xs: seq<string>): (r: seq<string>)
    ensures Distinct(r)
    ensures forall x :: x in r <==> x in xs
  {
    if xs == [] then []
    else
      var rest := FirstOccurrences(xs[..|xs| - 1]);
      assert xs == xs[..|xs| - 1] + [xs[|xs| - 1]];
      if xs[|xs| - 1] in rest then rest else rest + [xs[|xs| - 1]]
  }

  /** Where `x` first stands in `xs`. */
  function FirstIndex(xs: seq<string>, x: string): (i: nat)
    requires x in xs
    ensures i < |xs| && xs[i] == x && x !in xs[..i]
  {
    var init := xs[..|xs| - 1];
    assert xs == init + [xs[|xs| - 1]];
    if x in init then
      assert init[..FirstIndex(init, x)] == xs[..FirstIndex(init, x)];
      FirstIndex(init, x)
    else |xs| - 1
  }

  /** Duplicates are dropped without changing the order. */
  lemma {:induction false} FirstOccurrencesInOrder(xs: seq<string>, j: nat, k: nat)
    requires j < k < |FirstOccurrences(xs)|
    ensures FirstIndex(xs, FirstOccurrences(xs)[j]) < FirstIndex(xs, FirstOccurrences(xs)[k])
  {
    var init := xs[..|xs| - 1];
    var rest := FirstOccurrences(init);
    assert xs == init + [xs[|xs| - 1]];
    assert rest[j] in init;
    if k < |rest| {
      assert rest[k] in init;
      FirstOccurrencesInOrder(init, j, k);
    }
  }

  lemma {:induction false} NamedAccountsHas(raw: seq<Option<string>>, a: string)
    ensures a in NamedAccounts(raw) <==> a != "" && Some(a) in raw
  {
    if raw != [] {
      assert raw == raw[..|raw| - 1] + [raw[|raw| - 1]];
      NamedAccountsHas(raw[..|raw| - 1], a);
    }
  }

  /** A notification goes to exactly the accounts it names, if it names any, and to the trigger's
      own account otherwise. */
  lemma RecipientsAreNamed(t: Trigger, raw: seq<Option<string>>, a: string)
    requires t.triggerType.NotificationTurn? && t.recipients == Some(raw)
    ensures (exists b :: b != "" && Some(b) in raw) ==> (a in RecipientAccountIds(t) <==> a != "" && Some(a) in raw)
    ensures !(exists b :: b != "" && Some(b) in raw) ==> RecipientAccountIds(t) == [t.account]
  {
    var named := NamedAccounts(raw);
    NamedAccountsHas(raw, a);
    if named != [] {
      NamedAccountsHas(raw, named[0]);
    }
    forall b | b != "" && Some(b) in raw ensures named != [] {
      NamedAccountsHas(raw, b);
    }
  }

  /** `_recipient_account_ids` */
  function RecipientAccountIds(t: Trigger): (r: seq<string>)
    ensures |r| >= 1 && Distinct(r)
    ensures !t.triggerType.NotificationTurn? ==> r == [t.account]
  {
    if t.triggerType.NotificationTurn? && t.recipients.Some? && NamedAccounts(t.recipients.value) != []
    then
      var named := NamedAccounts(t.recipients.value);
      assert named[0] in FirstOccurrences(named);
      FirstOccurrences(named)
    else [t.account]
  }

  // ------------------------------------------------------------------- recorded messages

  function SortIndex(m: Message): int { if m.segmentIndex.Some? then m.segmentIndex.value else 0 }

  predicate SortsBefore(a: Message, b: Message) {
    SortIndex(a) < SortIndex(b) || (SortIndex(a) == SortIndex(b) && a.id <= b.id)
  }

  function Insert(m: Message, sorted: seq<Message>): (r: seq<Message>)
    ensures |r| == |sorted| + 1
  {
    if sorted == [] then [m]
    else if SortsBefore(sorted[|sorted| - 1], m) then sorted + [m]
    else Insert(m, sorted[..|sorted| - 1]) + [sorted[|sorted| - 1]]
  }

  /** `sorted`, by segment index and then id. */
  function Sorted(ms: seq<Message>): (r: seq<Message>)
    ensures |r| == |ms|
  {
    if ms == [] then [] else Insert(ms[|ms| - 1], Sorted(ms[..|ms| - 1]))
  }

  /** `_outbound_message_id_for_segment` */
  function FirstWithIndex(ms: seq<Message>, index: int): Option<nat> {
    if ms == [] then None
    else if ms[0].segmentIndex == Some(index) then Some(ms[0].id)
    else FirstWithIndex(ms[1..], index)
  }

  function MessageIdFor(ms: seq<Message>, index: int): Option<nat> { FirstWithIndex(Sorted(ms), index) }

  ghost predicate InOrder(ms: seq<Message>) {
    forall j, k :: 0 <= j < k < |ms| ==> SortsBefore(ms[j], ms[k])
  }

  lemma {:induction false} InsertSorts(m: Message, sorted: seq<Message>)
    requires InOrder(sorted)
    ensures InOrder(Insert(m, sorted))
    ensures multiset(Insert(m, sorted)) == multiset(sorted) + multiset{m}
  {
    if sorted != [] {
      var init, last := sorted[..|sorted| - 1], sorted[|sorted| - 1];
      assert sorted == init + [last];
      if !SortsBefore(last, m) {
        InsertSorts(m, init);
        forall x | x in Insert(m, init) ensures SortsBefore(x, last) {
          assert x in multiset(Insert(m, init));
          assert x in init || x == m;
        }
      }
    }
  }

  lemma {:induction false} SortedSorts(ms: seq<Message>)
    ensures InOrder(Sorted(ms))
    ensures multiset(Sorted(ms)) == multiset(ms)
  {
    if ms != [] {
      var init, last := ms[..|ms| - 1], ms[|ms| - 1];
      assert ms == init + [last];
      SortedSorts(init);
      InsertSorts(last, Sorted(init));
    }
  }

  lemma {:induction false} FirstIsLeast(ms: seq<Message>, index: int)
    requires InOrder(ms)
    ensures var r := FirstWithIndex(ms, index);
            && (r.None? <==> forall m :: m in ms ==> m.segmentIndex != Some(index))
            && (r.Some? ==>
                  && Message(Some(index), r.value) in ms
                  && forall m :: m in ms && m.segmentIndex == Some(index) ==> r.value <= m.id)
  {
    if ms != [] {
      assert ms == [ms[0]] + ms[1..];
      if ms[0].segmentIndex != Some(index) {
        FirstIsLeast(ms[1..], index);
      }
    }
  }

  /** A request carries the least id recorded for its segment, if there is one. */
  lemma MessageIdIsLeast(ms: seq<Message>, index: int)
    ensures var r := MessageIdFor(ms, index);
            && (r.None? <==> forall m :: m in ms ==> m.segmentIndex != Some(index))
            && (r.Some? ==>
                  && Message(Some(index), r.value) in ms
                  && forall m :: m in ms && m.segmentIndex == Some(index) ==> r.value <= m.id)
  {
    SortedSorts(ms);
    FirstIsLeast(Sorted(ms), index);
    forall m ensures m in Sorted(ms) <==> m in ms {
      assert m in multiset(Sorted(ms)) <==> m in multiset(ms);
    }
  }

  // -------------------------------------------------------------------------- requests

  function Digit(d: nat): char
    requires d < 10
  {
    '0' + d as char
  }

  function Decimal(n: nat): (s: string)
    ensures s != [] && forall k :: 0 <= k < |s| ==> '0' <= s[k] <= '9'
  {
    if n < 10 then [Digit(n)] else Decimal(n / 10) + [Digit(n % 10)]
  }

  function IdempotencyKey(turnId: string, index: nat, account: string, suffixed: bool): string {
    var key := turnId + ":reply:" + Decimal(index);
    if suffixed then key + ":" + account else key
  }

  function RequestFor(t: Trigger, turnId: string, account: string, multiple: bool, segment: string, ms: seq<Message>,
                      index: nat): Request
  {
    Request(account, IdempotencyKey(turnId, index, account, multiple || account != t.account), segment,
      MessageIdFor(ms, index))
  }

  /** The requests for one recipient. */
  function RequestsTo(t: Trigger, turnId: string, account: string, multiple: bool, segments: seq<string>,
                      ms: seq<Message>, start: nat): (r: seq<Request>)
    ensures |r| == |segments|
    ensures forall j :: 0 <= j < |segments| ==>
            r[j] == RequestFor(t, turnId, account, multiple, segments[j], ms, start + j)
  {
    seq(|segments|, j requires 0 <= j < |segments| =>
          RequestFor(t, turnId, account, multiple, segments[j], ms, start + j))
  }

  function RequestsToAll(t: Trigger, turnId: string, accounts: seq<string>, multiple: bool, segments: seq<string>,
                         ms: seq<Message>, start: nat): seq<Request>
  {
    if accounts == [] then []
    else
      RequestsTo(t, turnId, accounts[0], multiple, segments, ms, start)
      + RequestsToAll(t, turnId, accounts[1..], multiple, segments, ms, start)
  }

  /** `_reply_delivery_requests` */
  function ReplyDeliveryRequests(t: Trigger, turnId: string, segments: seq<string>, ms: seq<Message>,
                                 start: nat): seq<Request>
  {
    var accounts := RecipientAccountIds(t);
    RequestsToAll(t, turnId, accounts, |accounts| > 1, segments, ms, start)
  }

  /** The inner loop, over the segments for one account. */
  method BuildRequestsTo(t: Trigger, turnId: string, account: string, multiple: bool, segments: seq<string>,
                         ms: seq<Message>, start: nat)
    returns (requests: seq<Request>)
    ensures requests == RequestsTo(t, turnId, account, multiple, segments, ms, start)
  {
    var ordered := Sorted(ms);
    requests := [];
    for j := 0 to |segments|
      invariant requests == RequestsTo(t, turnId, account, multiple, segments, ms, start)[..j]
    {
      var key := turnId + ":reply:" + Decimal(start + j);
      if multiple || account != t.account {
        key := key + ":" + account;
      }
      requests := requests + [Request(account, key, segments[j], FirstWithIndex(ordered, start + j))];
    }
  }

  method BuildReplyDeliveryRequests(t: Trigger, turnId: string, segments: seq<string>, ms: seq<Message>, start: nat)
    returns (requests: seq<Request>)
    ensures requests == ReplyDeliveryRequests(t, turnId, segments, ms, start)
  {
    var recipients := RecipientAccountIds(t);
    var multiple := |recipients| > 1;
    requests := [];
    assert recipients[..|recipients|] == recipients;
    for i := 0 to |recipients|
      invariant requests == RequestsToAll(t, turnId, recipients[..i], multiple, segments, ms, start)
    {
      var more := BuildRequestsTo(t, turnId, recipients[i], multiple, segments, ms, start);
      RequestsToAllAppend(t, turnId, recipients[..i], recipients[i], multiple, segments, ms, start);
      assert recipients[..i + 1] == recipients[..i] + [recipients[i]];
      requests := requests + more;
    }
  }

  lemma {:induction false} RequestsToAllAppend(t: Trigger, turnId: string, accounts: seq<string>, account: string,
                                               multiple: bool, segments: seq<string>, ms: seq<Message>, start: nat)
    ensures RequestsToAll(t, turnId, accounts + [account], multiple, segments, ms, start)
            == RequestsToAll(t, turnId, accounts, multiple, segments, ms, start)
              + RequestsTo(t, turnId, account, multiple, segments, ms, start)
  {
    if accounts == [] {
      assert [account][1..] == [] && accounts + [account] == [account];
    } else {
      RequestsToAllAppend(t, turnId, accounts[1..], account, multiple, segments, ms, start);
      assert (accounts + [account])[1..] == accounts[1..] + [account];
    }
  }

  // ------------------------------------------------------------------ distinct keys

  function DecimalValue(s: string): int {
    if s == [] then 0 else DecimalValue(s[..|s| - 1]) * 10 + (s[|s| - 1] as int - '0' as int)
  }

  lemma {:induction false} DecimalRoundTrip(n: nat)
    ensures DecimalValue(Decimal(n)) == n
  {
    if n >= 10 {
      DecimalRoundTrip(n / 10);
      assert Decimal(n)[..|Decimal(n)| - 1] == Decimal(n / 10);
    }
  }

  lemma DecimalInjective(i: nat, j: nat)
    requires Decimal(i) == Decimal(j)
    ensures i == j
  {
    DecimalRoundTrip(i);
    DecimalRoundTrip(j);
  }

  /** Within one turn a key tells the segment index, and with a suffix also the account. */
  lemma KeyInjective(turnId: string, i: nat, a: string, j: nat, b: string, suffixed: bool)
    requires IdempotencyKey(turnId, i, a, suffixed) == IdempotencyKey(turnId, j, b, suffixed)
    ensures i == j && (suffixed ==> a == b)
  {
    var head := turnId + ":reply:";
    var x, y := IdempotencyKey(turnId, i, a, suffixed), IdempotencyKey(turnId, j, b, suffixed);
    if suffixed {
      SuffixInjective(Decimal(i), a, Decimal(j), b, x[|head|..]);
    } else {
      assert x[|head|..] == Decimal(i) && y[|head|..] == Decimal(j);
    }
    DecimalInjective(i, j);
  }

  lemma SuffixInjective(d: string, a: string, e: string, b: string, text: string)
    requires text == d + ":" + a == e + ":" + b
    requires ':' !in d && ':' !in e
    ensures d == e && a == b
  {
    assert text[|d|] == ':' && text[|e|] == ':';
    assert forall k :: 0 <= k < |d| ==> text[k] == d[k];
    assert forall k :: 0 <= k < |e| ==> text[k] == e[k];
    assert |d| == |e|;
    assert text[..|d|] == d && text[..|e|] == e;
    assert text[|d| + 1..] == a && text[|e| + 1..] == b;
  }

  /** Each request is one segment for one of the accounts. */
  lemma {:induction false} RequestShape(t: Trigger, turnId: string, accounts: seq<string>, multiple: bool,
                                        segments: seq<string>, ms: seq<Message>, start: nat, p: nat)
    requires p < |RequestsToAll(t, turnId, accounts, multiple, segments, ms, start)|
    ensures exists a, j :: 0 <= a < |accounts| && 0 <= j < |segments|
              && RequestsToAll(t, turnId, accounts, multiple, segments, ms, start)[p]
                == RequestFor(t, turnId, accounts[a], multiple, segments[j], ms, start + j)
  {
    var block := RequestsTo(t, turnId, accounts[0], multiple, segments, ms, start);
    if p < |block| {
      assert block[p] == RequestFor(t, turnId, accounts[0], multiple, segments[p], ms, start + p);
    } else {
      RequestShape(t, turnId, accounts[1..], multiple, segments, ms, start, p - |block|);
      var a, j :| 0 <= a < |accounts[1..]| && 0 <= j < |segments|
        && RequestsToAll(t, turnId, accounts[1..], multiple, segments, ms, start)[p - |block|]
          == RequestFor(t, turnId, accounts[1..][a], multiple, segments[j], ms, start + j);
      assert accounts[a + 1] == accounts[1..][a];
    }
  }

  lemma {:induction false} KeysOfAllDistinct(t: Trigger, turnId: string, accounts: seq<string>, multiple: bool,
                                             segments: seq<string>, ms: seq<Message>, start: nat, p: nat, q: nat)
    requires Distinct(accounts) && (|accounts| > 1 ==> multiple)
    requires p < q < |RequestsToAll(t, turnId, accounts, multiple, segments, ms, start)|
    ensures var all := RequestsToAll(t, turnId, accounts, multiple, segments, ms, start); all[p].key != all[q].key
  {
    var n := |segments|;
    if q < n {
      KeysToOneDistinct(t, turnId, accounts[0], multiple, segments, ms, start, p, q);
    } else if p >= n {
      KeysOfAllDistinct(t, turnId, accounts[1..], multiple, segments, ms, start, p - n, q - n);
    } else {
      KeysToOthersDistinct(t, turnId, accounts, segments, ms, start, p, q - n);
    }
  }

  lemma KeysToOneDistinct(t: Trigger, turnId: string, account: string, multiple: bool, segments: seq<string>,
                          ms: seq<Message>, start: nat, p: nat, q: nat)
    requires p < q < |segments|
    ensures var block := RequestsTo(t, turnId, account, multiple, segments, ms, start); block[p].key != block[q].key
  {
    var suffixed := multiple || account != t.account;
    if IdempotencyKey(turnId, start + p, account, suffixed) == IdempotencyKey(turnId, start + q, account, suffixed) {
      KeyInjective(turnId, start + p, account, start + q, account, suffixed);
    }
  }

  lemma KeysToOthersDistinct(t: Trigger, turnId: string, accounts: seq<string>, segments: seq<string>,
                             ms: seq<Message>, start: nat, p: nat, q: nat)
    requires Distinct(accounts) && accounts != [] && p < |segments|
    requires q < |RequestsToAll(t, turnId, accounts[1..], true, segments, ms, start)|
    ensures RequestsTo(t, turnId, accounts[0], true, segments, ms, start)[p].key
            != RequestsToAll(t, turnId, accounts[1..], true, segments, ms, start)[q].key
  {
    RequestShape(t, turnId, accounts[1..], true, segments, ms, start, q);
    var a, j :| 0 <= a < |accounts[1..]| && 0 <= j < |segments|
      && RequestsToAll(t, turnId, accounts[1..], true, segments, ms, start)[q]
        == RequestFor(t, turnId, accounts[1..][a], true, segments[j], ms, start + j);
    assert accounts[1..][a] == accounts[a + 1];
    if IdempotencyKey(turnId, start + p, accounts[0], true)
       == IdempotencyKey(turnId, start + j, accounts[a + 1], true) {
      KeyInjective(turnId, start + p, accounts[0], start + j, accounts[a + 1], true);
    }
  }

  /** No two requests of a turn share an idempotency key, whatever the recipient list. */
  lemma IdempotencyKeysDistinct(t: Trigger, turnId: string, segments: seq<string>, ms: seq<Message>, start: nat,
                                p: nat, q: nat)
    requires p < q < |ReplyDeliveryRequests(t, turnId, segments, ms, start)|
    ensures ReplyDeliveryRequests(t, turnId, segments, ms, start)[p].key
            != ReplyDeliveryRequests(t, turnId, segments, ms, start)[q].key
  {
    var accounts := RecipientAccountIds(t);
    KeysOfAllDistinct(t, turnId, accounts, |accounts| > 1, segments, ms, start, p, q);
  }

  // ---------------------------------------------------------- streamed and batched

  /** Sending a first part and then the rest gives the batch's requests, in order, exactly when
      there is one recipient or nothing is split. */
  lemma SplitIsBatchIff(t: Trigger, turnId: string, segments: seq<string>, ms: seq<Message>, start: nat, k: nat)
    requires k <= |segments|
    ensures ReplyDeliveryRequests(t, turnId, segments[..k], ms, start)
            + ReplyDeliveryRequests(t, turnId, segments[k..], ms, start + k)
            == ReplyDeliveryRequests(t, turnId, segments, ms, start)
            <==> |RecipientAccountIds(t)| == 1 || k == 0 || k == |segments|
  {
    var accounts := RecipientAccountIds(t);
    if |accounts| == 1 {
      SplitForOne(t, turnId, segments, ms, start, k);
    } else if k == 0 {
      assert segments[..0] == [] && segments[0..] == segments;
      NoSegmentsNoRequests(t, turnId, accounts, |accounts| > 1, ms, start);
    } else if k == |segments| {
      assert segments[..k] == segments && segments[k..] == [];
      NoSegmentsNoRequests(t, turnId, accounts, |accounts| > 1, ms, start + k);
    } else {
      SplitDiffers(t, turnId, segments, ms, start, k);
    }
  }

  lemma SplitForOne(t: Trigger, turnId: string, segments: seq<string>, ms: seq<Message>, start: nat, k: nat)
    requires |RecipientAccountIds(t)| == 1 && k <= |segments|
    ensures ReplyDeliveryRequests(t, turnId, segments[..k], ms, start)
            + ReplyDeliveryRequests(t, turnId, segments[k..], ms, start + k)
            == ReplyDeliveryRequests(t, turnId, segments, ms, start)
  {
    var account := RecipientAccountIds(t)[0];
    OnlyOne(t, turnId, segments[..k], ms, start);
    OnlyOne(t, turnId, segments[k..], ms, start + k);
    OnlyOne(t, turnId, segments, ms, start);
    assert RequestsTo(t, turnId, account, false, segments[..k], ms, start)
           + RequestsTo(t, turnId, account, false, segments[k..], ms, start + k)
        == RequestsTo(t, turnId, account, false, segments, ms, start);
  }

  lemma OnlyOne(t: Trigger, turnId: string, segments: seq<string>, ms: seq<Message>, start: nat)
    requires |RecipientAccountIds(t)| == 1
    ensures ReplyDeliveryRequests(t, turnId, segments, ms, start)
            == RequestsTo(t, turnId, RecipientAccountIds(t)[0], false, segments, ms, start)
  {
    assert RequestsToAll(t, turnId, RecipientAccountIds(t)[1..], false, segments, ms, start) == [];
  }

  lemma {:induction false} NoSegmentsNoRequests(t: Trigger, turnId: string, accounts: seq<string>, multiple: bool,
                                                ms: seq<Message>, start: nat)
    ensures RequestsToAll(t, turnId, accounts, multiple, [], ms, start) == []
  {
    if accounts != [] {
      NoSegmentsNoRequests(t, turnId, accounts[1..], multiple, ms, start);
    }
  }

  /** With two recipients, the request after the first part goes to the second recipient, where
      the batch is still sending to the first. */
  lemma SplitDiffers(t: Trigger, turnId: string, segments: seq<string>, ms: seq<Message>, start: nat, k: nat)
    requires |RecipientAccountIds(t)| > 1 && 0 < k < |segments|
    ensures ReplyDeliveryRequests(t, turnId, segments[..k], ms, start)
            + ReplyDeliveryRequests(t, turnId, segments[k..], ms, start + k)
            != ReplyDeliveryRequests(t, turnId, segments, ms, start)
  {
    var accounts := RecipientAccountIds(t);
    var first := ReplyDeliveryRequests(t, turnId, segments[..k], ms, start);
    var batch := ReplyDeliveryRequests(t, turnId, segments, ms, start);
    assert batch[k].account == accounts[0];
    assert accounts[1..][0] == accounts[1];
    assert RequestsToAll(t, turnId, accounts[1..], true, segments[..k], ms, start)[0].account == accounts[1];
    assert first[k].account == accounts[1];
  }
}
