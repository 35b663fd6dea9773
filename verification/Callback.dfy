/** Telegram callback data: the parser's tag table, the text the views print for
    each action, and the round trips between them. */
module Callback {
  import opened Results
  import opened Text

  const MAX_CALLBACK_BYTES := 64

  datatype Action =
    | Menu | Support | Categories | Products | ProductDetail
    | OrderQuantity | OrderBank | OrderConfirm | Orders | OrderView | OrderAskCancel | OrderCancel
    | OrderWalletAsk | OrderWalletPay
    | WalletTopupAmount | WalletTopupBank | WalletBalance
    | AdminCategories | AdminProducts | AdminCategoryNew | AdminCategoryEdit | AdminCategoryAskToggle
    | AdminCategoryToggle | AdminProductNew | AdminProductEdit | AdminProductAskToggle | AdminProductToggle
    | AdminInventory | AdminInventoryList | AdminInventoryImport | AdminInventoryAskToggle | AdminInventoryToggle
    | AdminBanks | AdminBankNew | AdminBankEdit | AdminBankAskToggle | AdminBankToggle
    | AdminPaymentReviews | AdminPaymentManual | AdminPaymentResolve | AdminWalletAdjustment
    | AdminDeliveries | AdminDeliveryDetail | AdminDeliveryRetry | AdminDeliveryComplete | AdminDeliveryConfirm
    | AdminDeliveryReconcile
    | AdminProviderHealth | AdminProviderAccounts | AdminProviderAccountNew | AdminProviderAccountAskToggle
    | AdminProviderAccountToggle
    | AdminCancel

  /** The named fields of a callback. */
  datatype Field =
    | Page | CategoryId | ProductId | BankId | OrderId | FlowId | Quantity | ItemId | RecordVersion
    | SessionId | SessionVersion | Active | Amount | ReviewId | DeliveryId | MappingId

  /** An action and the values of its fields, in the order of its text. */
  datatype Callback = Callback(action: Action, values: seq<int>)

  datatype Tag = One(c: char) | Two(c: char, d: char) | Unknown

  function TagOf(part: string): Tag {
    if |part| == 1 then One(part[0]) else if |part| == 2 then Two(part[0], part[1]) else Unknown
  }

  function TagText(tag: Tag): string {
    match tag
    case One(c) => [c]
    case Two(c, d) => [c, d]
    case Unknown => ""
  }

  /** The fields each action carries, in the order the parser reads them. */
  function Fields(a: Action): seq<Field> {
    match a
    case Menu => [] case Support => [] case Categories => [Page]
    case Products => [CategoryId, Page]
    case ProductDetail => [ProductId, CategoryId, Page]
    case OrderQuantity => [ProductId, Quantity]
    case OrderBank => [ProductId, Quantity, BankId]
    case OrderConfirm => [FlowId, ProductId, Quantity, BankId]
    case Orders => [Page]
    case OrderView => [OrderId]
    case OrderAskCancel => [OrderId, RecordVersion]
    case OrderCancel => [OrderId, RecordVersion]
    case OrderWalletAsk => [OrderId]
    case OrderWalletPay => [FlowId, OrderId]
    case WalletTopupAmount => [Amount]
    case WalletTopupBank => [FlowId, Amount, BankId]
    case WalletBalance => []
    case AdminCategories => [Page] case AdminProducts => [Page]
    case AdminCategoryNew => [] case AdminProductNew => []
    case AdminCategoryEdit => [CategoryId, RecordVersion]
    case AdminProductEdit => [ProductId, RecordVersion]
    case AdminCategoryAskToggle => [CategoryId, RecordVersion, Active]
    case AdminProductAskToggle => [ProductId, RecordVersion, Active]
    case AdminCategoryToggle => [SessionId, SessionVersion, CategoryId, RecordVersion, Active]
    case AdminProductToggle => [SessionId, SessionVersion, ProductId, RecordVersion, Active]
    case AdminInventory => [Page]
    case AdminInventoryList => [ProductId, Page]
    case AdminInventoryImport => [ProductId]
    case AdminInventoryAskToggle => [ItemId, RecordVersion, Active]
    case AdminInventoryToggle => [SessionId, SessionVersion, ItemId, RecordVersion, Active]
    case AdminBanks => [Page] case AdminBankNew => []
    case AdminBankEdit => [BankId, RecordVersion]
    case AdminBankAskToggle => [BankId, RecordVersion, Active]
    case AdminBankToggle => [SessionId, SessionVersion, BankId, RecordVersion, Active]
    case AdminPaymentReviews => [Page] case AdminPaymentManual => []
    case AdminPaymentResolve => [ReviewId]
    case AdminWalletAdjustment => []
    case AdminDeliveries => [Page]
    case AdminDeliveryDetail => [DeliveryId]
    case AdminDeliveryRetry => [DeliveryId, RecordVersion]
    case AdminDeliveryComplete => [DeliveryId, RecordVersion]
    case AdminDeliveryConfirm => [SessionId, SessionVersion]
    case AdminDeliveryReconcile => []
    case AdminProviderHealth => [] case AdminProviderAccounts => [Page] case AdminProviderAccountNew => []
    case AdminProviderAccountAskToggle => [MappingId, RecordVersion, Active]
    case AdminProviderAccountToggle => [SessionId, SessionVersion, MappingId, RecordVersion, Active]
    case AdminCancel => [SessionId, SessionVersion]
  }

  // ---------- the parser ----------

  const MAX_INT64: nat := 0x7FFF_FFFF_FFFF_FFFF
  const MAX_INT32: nat := 0x7FFF_FFFF

  /** nonNegative, positiveInt32, parseBoolBit and positive. */
  function ParseField(field: Field, part: string): Option<int> {
    match field
    case Page =>
      var value := ParseInt(part, MAX_INT32);
      if value.Some? && value.value >= 0 then value else None
    case Quantity =>
      var value := ParseInt(part, MAX_INT32);
      if value.Some? && value.value > 0 then value else None
    case Active => if part == "0" then Some(0) else if part == "1" then Some(1) else None
    case _ =>
      var value := ParseInt(part, MAX_INT64);
      if value.Some? && value.value > 0 then value else None
  }

  function MenuAction(tag: Tag): Option<Action> {
    match tag
    case One('m') => Some(Menu)
    case One('s') => Some(Support)
    case One('c') => Some(Categories)
    case One('p') => Some(Products)
    case One('d') => Some(ProductDetail)
    case _ => None
  }

  function OrderAction(tag: Tag): Option<Action> {
    match tag
    case Two('q', 'h') => Some(AdminProviderHealth)
    case Two('q', 'l') => Some(AdminProviderAccounts)
    case Two('q', 'n') => Some(AdminProviderAccountNew)
    case Two('q', 'a') => Some(AdminProviderAccountAskToggle)
    case Two('q', 't') => Some(AdminProviderAccountToggle)
    case One('q') => Some(OrderQuantity)
    case One('b') => Some(OrderBank)
    case One('c') => Some(OrderConfirm)
    case One('l') => Some(Orders)
    case One('v') => Some(OrderView)
    case One('x') => Some(OrderAskCancel)
    case One('k') => Some(OrderCancel)
    case One('w') => Some(OrderWalletAsk)
    case One('y') => Some(OrderWalletPay)
    case _ => None
  }

  function WalletAction(tag: Tag): Option<Action> {
    match tag
    case One('v') => Some(WalletBalance)
    case One('a') => Some(WalletTopupAmount)
    case One('b') => Some(WalletTopupBank)
    case _ => None
  }

  function AdminAction(tag: Tag): Option<Action> {
    match tag
    case Two('d', 'l') => Some(AdminDeliveries)
    case Two('d', 'd') => Some(AdminDeliveryDetail)
    case Two('d', 'r') => Some(AdminDeliveryRetry)
    case Two('d', 'm') => Some(AdminDeliveryComplete)
    case Two('d', 'c') => Some(AdminDeliveryConfirm)
    case Two('d', 'x') => Some(AdminDeliveryReconcile)
    case Two('p', 'm') => Some(AdminPaymentManual)
    case Two('p', 'r') => Some(AdminPaymentReviews)
    case Two('r', 'r') => Some(AdminPaymentResolve)
    case Two('w', 'a') => Some(AdminWalletAdjustment)
    case One('b') => Some(AdminBanks)
    case Two('b', 'n') => Some(AdminBankNew)
    case Two('b', 'e') => Some(AdminBankEdit)
    case Two('b', 'a') => Some(AdminBankAskToggle)
    case Two('b', 't') => Some(AdminBankToggle)
    case One('c') => Some(AdminCategories)
    case One('p') => Some(AdminProducts)
    case One('i') => Some(AdminInventory)
    case Two('i', 'l') => Some(AdminInventoryList)
    case Two('i', 'i') => Some(AdminInventoryImport)
    case Two('i', 's') => Some(AdminInventoryAskToggle)
    case Two('i', 't') => Some(AdminInventoryToggle)
    case Two('c', 'n') => Some(AdminCategoryNew)
    case Two('p', 'n') => Some(AdminProductNew)
    case Two('c', 'e') => Some(AdminCategoryEdit)
    case Two('p', 'e') => Some(AdminProductEdit)
    case Two('c', 'a') => Some(AdminCategoryAskToggle)
    case Two('p', 'a') => Some(AdminProductAskToggle)
    case Two('c', 't') => Some(AdminCategoryToggle)
    case Two('p', 't') => Some(AdminProductToggle)
    case One('x') => Some(AdminCancel)
    case _ => None
  }

  /** The action the tags name, and how many parts precede its fields. */
  function Select(parts: seq<string>): Option<(Action, nat)> {
    if |parts| < 2 || parts[0] != "v1" then None
    else
      match TagOf(parts[1])
      case One('o') => if |parts| < 3 then None else After(3, OrderAction(TagOf(parts[2])))
      case One('w') => if |parts| < 3 then None else After(3, WalletAction(TagOf(parts[2])))
      case One('a') => if |parts| < 3 then None else After(3, AdminAction(TagOf(parts[2])))
      case tag => After(2, MenuAction(tag))
  }

  function After(skip: nat, action: Option<Action>): Option<(Action, nat)> {
    if action.Some? then Some((action.value, skip)) else None
  }

  function ParseFields(fields: seq<Field>, parts: seq<string>): (values: Option<seq<int>>)
    requires |fields| == |parts|
    ensures values.Some? ==>
              && |values.value| == |fields|
              && forall k :: 0 <= k < |fields| ==> ParseField(fields[k], parts[k]) == Some(values.value[k])
    ensures values.None? ==> exists k :: 0 <= k < |fields| && ParseField(fields[k], parts[k]).None?
  {
    if fields == [] then Some([])
    else
      var head := ParseField(fields[0], parts[0]);
      if head.None? then None
      else
        var rest := ParseFields(fields[1..], parts[1..]);
        if rest.None? then
          (var k :| 0 <= k < |fields| - 1 && ParseField(fields[1..][k], parts[1..][k]).None?;
           assert ParseField(fields[k + 1], parts[k + 1]).None?;
           None)
        else Some([head.value] + rest.value)
  }

  /** ParseCallback. Tags and digits are ASCII, so the parser's UTF-8 check refuses
      nothing that would otherwise be accepted. */
  function Parse(data: string): Option<Callback> {
    if data == "" || |data| > MAX_CALLBACK_BYTES then None
    else
      var parts := Split(data, ':');
      var selected := Select(parts);
      if selected.None? then None
      else
        var (action, skip) := selected.value;
        if |parts| != skip + |Fields(action)| then None
        else
          var values := ParseFields(Fields(action), parts[skip..]);
          if values.None? then None else Some(Callback(action, values.value))
  }

  // ---------- the printer ----------

  /** The tags of an action, as its button names them. */
  function Group(a: Action): (char, Tag) {
    match a
    case Menu => ('m', Unknown) case Support => ('s', Unknown) case Categories => ('c', Unknown)
    case Products => ('p', Unknown) case ProductDetail => ('d', Unknown)
    case AdminProviderHealth => ('o', Two('q', 'h')) case AdminProviderAccounts => ('o', Two('q', 'l'))
    case AdminProviderAccountNew => ('o', Two('q', 'n')) case AdminProviderAccountAskToggle => ('o', Two('q', 'a'))
    case AdminProviderAccountToggle => ('o', Two('q', 't'))
    case OrderQuantity => ('o', One('q')) case OrderBank => ('o', One('b')) case OrderConfirm => ('o', One('c'))
    case Orders => ('o', One('l')) case OrderView => ('o', One('v')) case OrderAskCancel => ('o', One('x'))
    case OrderCancel => ('o', One('k')) case OrderWalletAsk => ('o', One('w')) case OrderWalletPay => ('o', One('y'))
    case WalletBalance => ('w', One('v')) case WalletTopupAmount => ('w', One('a'))
    case WalletTopupBank => ('w', One('b'))
    case AdminDeliveries => ('a', Two('d', 'l')) case AdminDeliveryDetail => ('a', Two('d', 'd'))
    case AdminDeliveryRetry => ('a', Two('d', 'r')) case AdminDeliveryComplete => ('a', Two('d', 'm'))
    case AdminDeliveryConfirm => ('a', Two('d', 'c')) case AdminDeliveryReconcile => ('a', Two('d', 'x'))
    case AdminPaymentManual => ('a', Two('p', 'm')) case AdminPaymentReviews => ('a', Two('p', 'r'))
    case AdminPaymentResolve => ('a', Two('r', 'r')) case AdminWalletAdjustment => ('a', Two('w', 'a'))
    case AdminBanks => ('a', One('b')) case AdminBankNew => ('a', Two('b', 'n'))
    case AdminBankEdit => ('a', Two('b', 'e'))
    case AdminBankAskToggle => ('a', Two('b', 'a')) case AdminBankToggle => ('a', Two('b', 't'))
    case AdminCategories => ('a', One('c')) case AdminProducts => ('a', One('p')) case AdminInventory => ('a', One('i'))
    case AdminInventoryList => ('a', Two('i', 'l')) case AdminInventoryImport => ('a', Two('i', 'i'))
    case AdminInventoryAskToggle => ('a', Two('i', 's')) case AdminInventoryToggle => ('a', Two('i', 't'))
    case AdminCategoryNew => ('a', Two('c', 'n')) case AdminProductNew => ('a', Two('p', 'n'))
    case AdminCategoryEdit => ('a', Two('c', 'e')) case AdminProductEdit => ('a', Two('p', 'e'))
    case AdminCategoryAskToggle => ('a', Two('c', 'a')) case AdminProductAskToggle => ('a', Two('p', 'a'))
    case AdminCategoryToggle => ('a', Two('c', 't')) case AdminProductToggle => ('a', Two('p', 't'))
    case AdminCancel => ('a', One('x'))
  }

  function TagsOf(group: (char, Tag)): seq<string> {
    if group.1 == Unknown then ["v1", [group.0]] else ["v1", [group.0], TagText(group.1)]
  }

  /** The range of a field: what the parser can return for it. */
  predicate InRange(field: Field, value: int) {
    match field
    case Page => 0 <= value <= MAX_INT32
    case Quantity => 0 < value <= MAX_INT32
    case Active => 0 <= value <= 1
    case _ => 0 < value <= MAX_INT64
  }

  predicate Valid(cb: Callback) {
    |cb.values| == |Fields(cb.action)|
    && forall k :: 0 <= k < |cb.values| ==> InRange(Fields(cb.action)[k], cb.values[k])
  }

  function Texts(cb: Callback): seq<string>
    requires Valid(cb)
  {
    seq(|cb.values|, k requires 0 <= k < |cb.values| =>
      assert InRange(Fields(cb.action)[k], cb.values[k]); Decimal(cb.values[k]))
  }

  /** The text under given tags. */
  function PrintUnder(group: (char, Tag), cb: Callback): string
    requires Valid(cb)
  {
    Join(TagsOf(group) + Texts(cb), ':')
  }

  function Print(cb: Callback): string
    requires Valid(cb)
  {
    PrintUnder(Group(cb.action), cb)
  }

  // ---------- the round trips ----------

  lemma FieldRoundTrip(field: Field, value: int)
    requires InRange(field, value)
    ensures ParseField(field, Decimal(value)) == Some(value)
  {
    match field
    case Page => ParsePrinted(value, MAX_INT32);
    case Quantity => ParsePrinted(value, MAX_INT32);
    case Active =>
    case _ => ParsePrinted(value, MAX_INT64);
  }

  /** The range of each field, as its text shows: pages and quantities fit in 32 bits,
      a switch is 0 or 1, and every other number is positive and fits in 64 bits. */
  lemma FieldIsExact(field: Field, n: nat)
    ensures var read := ParseField(field, Decimal(n));
            var fits := match field
                        case Page => n <= 2147483647
                        case Quantity => 0 < n <= 2147483647
                        case Active => n <= 1
                        case _ => 0 < n <= 9223372036854775807;
            read == if fits then Some(n) else None
  {
    match field
    case Active => SwitchText(n);
    case Page => ParsePrinted(n, MAX_INT32);
    case Quantity => ParsePrinted(n, MAX_INT32);
    case _ => ParsePrinted(n, MAX_INT64);
  }

  lemma SwitchText(n: nat)
    ensures Decimal(n) == "0" <==> n == 0
    ensures Decimal(n) == "1" <==> n == 1
  {
    NumberOfDecimal(n);
    NumberOfDecimal(0);
    NumberOfDecimal(1);
    assert Decimal(0) == "0" && Decimal(1) == "1";
  }

  /** What a field accepts is in range, and its printed form is not longer. */
  lemma FieldNormalForm(field: Field, part: string)
    requires ParseField(field, part).Some?
    ensures InRange(field, ParseField(field, part).value)
    ensures |Decimal(ParseField(field, part).value)| <= |part|
  {
    match field
    case Page => PrintedIsShort(part, MAX_INT32);
    case Quantity => PrintedIsShort(part, MAX_INT32);
    case Active =>
    case _ => PrintedIsShort(part, MAX_INT64);
  }

  // The tag table is read back exactly, group by group.

  lemma MenuTags(tag: Tag, a: Action)
    ensures MenuAction(tag) == Some(a) <==> tag.One? && Group(a) == (tag.c, Unknown)
  {
  }

  lemma OrderTags(tag: Tag, a: Action)
    ensures OrderAction(tag) == Some(a) <==> Group(a) == ('o', tag)
  {
    OrderTagsRead(tag);
    OrderTagsPrinted(a);
  }

  lemma OrderTagsRead(tag: Tag)
    ensures OrderAction(tag).Some? ==> Group(OrderAction(tag).value) == ('o', tag)
  {
  }

  lemma OrderTagsPrinted(a: Action)
    ensures Group(a).0 == 'o' ==> OrderAction(Group(a).1) == Some(a)
  {
  }

  lemma WalletTags(tag: Tag, a: Action)
    ensures WalletAction(tag) == Some(a) <==> Group(a) == ('w', tag)
  {
  }

  lemma AdminTags(tag: Tag, a: Action)
    ensures AdminAction(tag) == Some(a) <==> Group(a) == ('a', tag)
  {
    AdminTagsRead(tag);
    AdminTagsPrinted(a);
  }

  lemma AdminTagsRead(tag: Tag)
    ensures AdminAction(tag).Some? ==> Group(AdminAction(tag).value) == ('a', tag)
  {
    if tag.Two? {
      AdminPairsRead(tag.c, tag.d);
    }
  }

  lemma AdminPairsRead(c: char, d: char)
    ensures AdminAction(Two(c, d)).Some? ==> Group(AdminAction(Two(c, d)).value) == ('a', Two(c, d))
  {
  }

  lemma AdminTagsPrinted(a: Action)
    ensures Group(a).0 == 'a' ==> AdminAction(Group(a).1) == Some(a)
  {
  }

  lemma TagTextIsExact(part: string, tag: Tag)
    requires tag != Unknown
    ensures TagOf(part) == tag <==> part == TagText(tag)
  {
  }

  /** The tags of a button are exactly these parts. */
  lemma TagsAre(parts: seq<string>, group: (char, Tag))
    ensures |parts| >= |TagsOf(group)| && parts[..|TagsOf(group)|] == TagsOf(group) <==>
            && |parts| >= 2 && parts[0] == "v1" && TagOf(parts[1]) == One(group.0)
            && (group.1 != Unknown ==> |parts| >= 3 && TagOf(parts[2]) == group.1)
  {
    if |parts| >= 2 {
      TagTextIsExact(parts[1], One(group.0));
      if group.1 == Unknown {
        assert parts[..2] == [parts[0], parts[1]];
      } else if |parts| >= 3 {
        TagTextIsExact(parts[2], group.1);
        assert parts[..3] == [parts[0], parts[1], parts[2]];
      }
    }
  }

  /** The action a pair of tags selects. */
  function Selected(first: Tag, second: Tag): Option<(Action, nat)> {
    match first
    case One('o') => After(3, OrderAction(second))
    case One('w') => After(3, WalletAction(second))
    case One('a') => After(3, AdminAction(second))
    case _ => After(2, MenuAction(first))
  }

  lemma SelectedIsExact(first: Tag, second: Tag, a: Action)
    requires second == Unknown ==> first !in {One('o'), One('w'), One('a')}
    ensures Selected(first, second).Some? && Selected(first, second).value.0 == a <==>
            first.One? && first.c == Group(a).0 && (Group(a).1 != Unknown ==> second == Group(a).1)
    ensures Selected(first, second).Some? && Selected(first, second).value.0 == a ==>
              Selected(first, second).value.1 == |TagsOf(Group(a))|
  {
    MenuTags(first, a);
    OrderTags(second, a);
    WalletTags(second, a);
    AdminTags(second, a);
    GroupShape(a);
  }

  lemma GroupShape(a: Action)
    ensures Group(a).1 == Unknown <==> Group(a).0 !in {'o', 'w', 'a'}
  {
  }

  lemma NoActionForUnknown()
    ensures OrderAction(Unknown).None? && WalletAction(Unknown).None? && AdminAction(Unknown).None?
  {
  }

  /** The parser selects an action exactly from the tags its button prints. */
  lemma SelectIsExact(parts: seq<string>, a: Action)
    ensures Select(parts).Some? && Select(parts).value.0 == a <==>
            |parts| >= |TagsOf(Group(a))| && parts[..|TagsOf(Group(a))|] == TagsOf(Group(a))
    ensures Select(parts).Some? && Select(parts).value.0 == a ==> Select(parts).value.1 == |TagsOf(Group(a))|
  {
    TagsAre(parts, Group(a));
    GroupShape(a);
    if |parts| >= 2 && parts[0] == "v1" {
      var first := TagOf(parts[1]);
      var second := if |parts| >= 3 then TagOf(parts[2]) else Unknown;
      SelectReadsTags(parts);
      if second != Unknown || first !in {One('o'), One('w'), One('a')} {
        SelectedIsExact(first, second, a);
      }
    }
  }

  lemma SelectReadsTags(parts: seq<string>)
    requires |parts| >= 2 && parts[0] == "v1"
    ensures var first := TagOf(parts[1]);
            var second := if |parts| >= 3 then TagOf(parts[2]) else Unknown;
            Select(parts) == if second == Unknown && first in {One('o'), One('w'), One('a')} then None
                             else Selected(first, second)
  {
    NoActionForUnknown();
  }

  lemma PrintedPartsAreFree(group: (char, Tag), cb: Callback)
    requires Valid(cb)
    requires group.0 != ':' && (group.1.One? ==> group.1.c != ':')
             && (group.1.Two? ==> group.1.c != ':' && group.1.d != ':')
    ensures forall k :: 0 <= k < |TagsOf(group) + Texts(cb)| ==> Free((TagsOf(group) + Texts(cb))[k], ':')
  {
  }

  lemma ColonIsNoTag(a: Action)
    ensures var (c, tag) := Group(a);
            c != ':' && (tag.One? ==> tag.c != ':') && (tag.Two? ==> tag.c != ':' && tag.d != ':')
  {
  }

  lemma FieldsRoundTrip(cb: Callback)
    requires Valid(cb)
    ensures ParseFields(Fields(cb.action), Texts(cb)) == Some(cb.values)
  {
    forall k | 0 <= k < |cb.values|
      ensures ParseField(Fields(cb.action)[k], Texts(cb)[k]) == Some(cb.values[k])
    {
      assert InRange(Fields(cb.action)[k], cb.values[k]);
      FieldRoundTrip(Fields(cb.action)[k], cb.values[k]);
    }
    var values := ParseFields(Fields(cb.action), Texts(cb));
    assert values.Some?;
    assert values.value == cb.values;
  }

  /** Every callback whose fields are in range is read back from its text, action and
      fields, if and only if the text fits into 64 bytes. */
  lemma ButtonRoundTrip(cb: Callback)
    requires Valid(cb)
    ensures Parse(Print(cb)) == Some(cb) <==> |Print(cb)| <= 64
  {
    var tags := TagsOf(Group(cb.action));
    var parts := tags + Texts(cb);
    ColonIsNoTag(cb.action);
    PrintedPartsAreFree(Group(cb.action), cb);
    SplitJoined(parts, ':');
    JoinLength(parts, ':');
    assert parts[..|tags|] == tags && parts[|tags|..] == Texts(cb);
    SelectIsExact(parts, cb.action);
    FieldsRoundTrip(cb);
  }

  lemma AcceptedFields(parts: seq<string>, cb: Callback)
    requires |TagsOf(Group(cb.action))| + |Fields(cb.action)| == |parts|
    requires ParseFields(Fields(cb.action), parts[|TagsOf(Group(cb.action))|..]) == Some(cb.values)
    ensures Valid(cb)
    ensures forall k :: 0 <= k < |cb.values| ==> |Texts(cb)[k]| <= |parts[|TagsOf(Group(cb.action))|..][k]|
  {
    var rest := parts[|TagsOf(Group(cb.action))|..];
    forall k | 0 <= k < |cb.values|
      ensures InRange(Fields(cb.action)[k], cb.values[k]) && |Decimal(cb.values[k])| <= |rest[k]|
    {
      FieldNormalForm(Fields(cb.action)[k], rest[k]);
    }
  }

  /** Normal form: whatever text is accepted, the printed form of what it means is
      not longer and means the same. */
  lemma AcceptedHasNormalForm(data: string)
    requires Parse(data).Some?
    ensures Valid(Parse(data).value)
    ensures |Print(Parse(data).value)| <= |data|
    ensures Parse(Print(Parse(data).value)) == Parse(data)
  {
    var cb := Parse(data).value;
    var parts := Split(data, ':');
    var tags := TagsOf(Group(cb.action));
    ParsedIs(data);
    SelectIsExact(parts, cb.action);
    AcceptedFields(parts, cb);
    assert parts[..|tags|] == tags;
    assert parts == tags + parts[|tags|..];
    ShorterText(tags, Texts(cb), parts[|tags|..]);
    JoinSplit(data, ':');
    ButtonRoundTrip(cb);
  }

  /** What an accepted text was split, selected and read as. */
  lemma ParsedIs(data: string)
    requires Parse(data).Some?
    ensures var cb := Parse(data).value;
            var parts := Split(data, ':');
            && |data| <= MAX_CALLBACK_BYTES
            && Select(parts).Some? && Select(parts).value.0 == cb.action
            && |parts| == Select(parts).value.1 + |Fields(cb.action)|
            && ParseFields(Fields(cb.action), parts[Select(parts).value.1..]) == Some(cb.values)
  {
  }

  lemma ShorterText(tags: seq<string>, small: seq<string>, large: seq<string>)
    requires tags != [] && |small| == |large|
    requires forall k :: 0 <= k < |small| ==> |small[k]| <= |large[k]|
    ensures |Join(tags + small, ':')| <= |Join(tags + large, ':')|
  {
    JoinLength(tags + small, ':');
    JoinLength(tags + large, ':');
    TotalGrows(tags + small, tags + large);
  }

  // ---------- the buttons of the views ----------

  /** The provider views print their tags under the administrator's group. */
  predicate ProviderButton(a: Action) {
    a in {AdminProviderHealth, AdminProviderAccounts, AdminProviderAccountNew, AdminProviderAccountAskToggle,
          AdminProviderAccountToggle}
  }

  /** The text a view or the router puts on a button. */
  function ButtonText(cb: Callback): string
    requires Valid(cb)
  {
    if ProviderButton(cb.action) then PrintUnder(('a', Group(cb.action).1), cb) else Print(cb)
  }

  lemma ProviderTagsAreOrderTags(a: Action)
    requires ProviderButton(a)
    ensures Group(a).1 != Unknown && AdminAction(Group(a).1).None?
  {
  }

  /** Every button that fits is read back as what it encodes, if and only if it is
      not one of the five provider buttons, which the parser refuses. */
  lemma ButtonsThatWork(cb: Callback)
    requires Valid(cb) && |ButtonText(cb)| <= 64
    ensures Parse(ButtonText(cb)) == Some(cb) <==> !ProviderButton(cb.action)
    ensures ProviderButton(cb.action) ==> Parse(ButtonText(cb)).None?
  {
    if ProviderButton(cb.action) {
      var group := ('a', Group(cb.action).1);
      var parts := TagsOf(group) + Texts(cb);
      ColonIsNoTag(cb.action);
      PrintedPartsAreFree(group, cb);
      SplitJoined(parts, ':');
      ProviderTagsAreOrderTags(cb.action);
      TagTextIsExact(parts[1], One('a'));
      TagTextIsExact(parts[2], group.1);
      assert Select(parts).None?;
    } else {
      ButtonRoundTrip(cb);
    }
  }
}
