/**
 * The bot's state and its interaction callbacks. `Shop` holds the module-level
 * tables of ShopBot.py (`user_carts`, `user_tickets`, `ticket_receipts`), the two
 * inventory files as a map from server name to stored inventory, the guild's
 * live text channels, and the messages posted to the `ticket-logs` channel.
 * Each callback is one method; gateway results the bot cannot choose (the id
 * of a newly created channel, a fetched history, whether a send or a delete
 * went through) are parameters.
 */
module ShopBot {
  import opened Wrappers
  import opened Text
  import opened Catalog
  import opened Cart
  import opened Tickets

  type UserId = int

  /** Discord snowflakes are positive, so a stored id is always truthy. */
  type ChannelId = x: int | x > 0 witness 1

  /** The keys of `SERVER_FILES` (ShopBot.py:22-25). */
  const ServerNames: set<string> := {"2b2t", "constantiam"}

  /** The smallest order total `ConfirmOrderButton` accepts (ShopBot.py:609). */
  const MinimumOrder: real := 5.0

  /** A `user_carts` value: `{'server': ..., 'items': [...]}`. */
  datatype UserCart = UserCart(server: Option<string>, items: seq<CartLine>)

  /** What a live channel is to the bot: a shop ticket or an order ticket it created for a user,
      or any other channel (including `ticket-logs` and channels older than this process). */
  datatype ChannelKind = ShopTicket(owner: UserId) | OrderTicket(owner: UserId) | Plain

  datatype Channel = Channel(name: string, kind: ChannelKind)

  /** The receipt embed of ShopBot.py:629-634, kept in `ticket_receipts`. */
  datatype Receipt = Receipt(user: UserId, server: string, lines: seq<ReceiptLine>, total: real)

  /** One message posted to `ticket-logs` by `CloseTicketButton`. */
  datatype LogPost = LogPost(channelName: string, transcript: string, delivery: Delivery, receipt: Option<Receipt>)

  datatype AddResult = BadServer | BadNumber | Added
  datatype DeleteResult = Unauthorized | NotFound | Deleted
  datatype EditResult = EditBadNumber | EditKeyError | Updated
  datatype BrowseResult = NeedServer | EmptyShop | Categories(names: seq<string>)
  datatype CategoryResult = NotYourButton | NoneAvailable | Offer(items: Items)
  datatype CartViewResult = EmptyCart | NoServerSet | CartView(lines: seq<ViewLine>, total: real)
  datatype ConfirmResult = NothingToConfirm | StaleItem(line: CartLine) | BelowMinimum(total: real) | Confirmed(ticket: ChannelId, receipt: Receipt)
  datatype OpenResult = NotYours | AlreadyOpen(existing: ChannelId) | Opened(created: ChannelId)
  datatype ShopCommandResult = AlreadyHere | OpenElsewhere(existing: ChannelId) | ChooseServer
  datatype CloseResult = NoLogChannel | SendFailed | Closed(post: LogPost)

  predicate HasLogChannel(channels: map<ChannelId, Channel>) {
    exists c :: c in channels && channels[c].name == LogChannelName
  }

  class Shop {
    /** The inventory JSON files that exist, by server name. */
    var files: map<string, Inventory>
    /** `user_carts`. */
    var carts: map<UserId, UserCart>
    /** `user_tickets`: the shop channel each user was last given. */
    var tickets: map<UserId, ChannelId>
    /** `ticket_receipts`. */
    var receipts: map<ChannelId, Receipt>
    /** The guild's live text channels. */
    var channels: map<ChannelId, Channel>
    /** Messages posted to `ticket-logs`, oldest first. */
    var logPosts: seq<LogPost>

    /** Only the files named in `SERVER_FILES` are tracked, and every live shop ticket is the
        channel bound to its owner in `user_tickets`: no user has two live shop tickets. */
    ghost predicate Valid()
      reads this
    {
      files.Keys <= ServerNames &&
      forall c :: c in channels && channels[c].kind.ShopTicket? ==>
        channels[c].kind.owner in tickets && tickets[channels[c].kind.owner] == c
    }

    /** Every stored inventory keeps each of its categories non-empty. The bot never writes an
        empty category, but a file it did not write may hold one, so this is not part of
        `Valid()`: each operation that writes a file keeps it once it holds. */
    ghost predicate CategoriesFilled()
      reads this
    {
      forall k :: k in files ==> NoEmptyCategory(files[k])
    }

    /** What `load_inventory(server)` returns: the stored file, `{}` for a server without a
        file and for an unknown one. */
    function Snapshot(server: string): Inventory
      reads this
    {
      var key := Lower(server);
      if key in ServerNames && key in files then files[key] else map[]
    }

    /** The files after `load_inventory(server)`, which writes `{}` for a known server without one. */
    function AfterLoad(server: string): map<string, Inventory>
      reads this
    {
      var key := Lower(server);
      if key in ServerNames && key !in files then files[key := map[]] else files
    }

    /** `user_carts` entry of a user, or the `setdefault` default. */
    function CartOf(user: UserId): UserCart
      reads this
    {
      if user in carts then carts[user] else UserCart(None, [])
    }

    /** The process starts with empty tables; channels that already exist are not tickets of
        this process, since `user_tickets` does not survive a restart. */
    constructor (disk: map<string, Inventory>, guild: map<ChannelId, string>)
      ensures Valid()
      ensures files == map k | k in disk && k in ServerNames :: disk[k]
      ensures channels == map c | c in guild :: Channel(guild[c], Plain)
      ensures carts == map[] && tickets == map[] && receipts == map[] && logPosts == []
      ensures (forall k :: k in disk ==> NoEmptyCategory(disk[k])) ==> CategoriesFilled()
    {
      files := map k | k in disk && k in ServerNames :: disk[k];
      channels := map c | c in guild :: Channel(guild[c], Plain);
      carts, tickets, receipts, logPosts := map[], map[], map[], [];
    }

    /** `load_inventory` (ShopBot.py:309-317, repeated at :804-812). */
    method LoadInventory(server: string) returns (inv: Inventory)
      requires Valid()
      modifies this`files
      ensures Valid()
      ensures inv == old(Snapshot(server)) && Snapshot(server) == inv
      ensures files == old(AfterLoad(server))
      ensures old(CategoriesFilled()) ==> CategoriesFilled() && NoEmptyCategory(inv)
    {
      var key := Lower(server);
      if key !in ServerNames {
        return map[];
      }
      if key !in files {
        files := files[key := map[]];
      }
      inv := files[key];
    }

    /** `save_inventory` (ShopBot.py:319-324, repeated at :814-819): a full overwrite of a known
        server's file, nothing for an unknown server. */
    method SaveInventory(server: string, data: Inventory)
      requires Valid()
      modifies this`files
      ensures Valid()
      ensures files == if Lower(server) in ServerNames then old(files)[Lower(server) := data] else old(files)
      ensures Lower(server) in ServerNames ==> Snapshot(server) == data
      ensures old(CategoriesFilled()) && NoEmptyCategory(data) ==> CategoriesFilled()
    {
      var key := Lower(server);
      if key in ServerNames {
        files := files[key := data];
      }
    }

    /** `AddItemModal.on_submit` (ShopBot.py:56-94). `price` and `stock` are the results of
        `float(...)` and `int(...)` on the stripped fields, `None` for a `ValueError`. The modal
        reads the file itself, by exact key and without creating it. */
    method AddItemSubmit(server: string, categoryText: string, nameText: string,
                         price: Option<real>, stock: Option<int>, imageText: string) returns (r: AddResult)
      requires Valid()
      modifies this`files
      ensures Valid()
      ensures r == if server !in ServerNames then BadServer else if price.None? || stock.None? then BadNumber else Added
      ensures r != Added ==> files == old(files)
      ensures r == Added ==>
        var stored := if server in old(files) then old(files)[server] else map[];
        files == old(files)[server := Upsert(stored, Strip(categoryText), Strip(nameText),
                                             ItemInfo(price.value, stock.value, Strip(imageText)))]
      ensures old(CategoriesFilled()) ==> CategoriesFilled()
    {
      if server !in ServerNames {
        return BadServer;
      }
      var inventory := if server in files then files[server] else map[];
      if price.None? || stock.None? {
        return BadNumber;
      }
      var info := ItemInfo(price.value, stock.value, Strip(imageText));
      var updated := Upsert(inventory, Strip(categoryText), Strip(nameText), info);
      if CategoriesFilled() {
        UpsertKeepsCategories(inventory, Strip(categoryText), Strip(nameText), info);
      }
      files := files[server := updated];
      return Added;
    }

    /** `DeleteItemDropdown.callback` (ShopBot.py:893-911): the item is deleted, and its category
        with it when that was the last item; a missing item saves nothing. */
    method DeleteItem(server: string, category: string, name: string) returns (r: DeleteResult)
      requires Valid()
      modifies this`files
      ensures Valid()
      ensures r == if Has(old(Snapshot(server)), category, name) then Deleted else NotFound
      ensures r == NotFound ==> files == old(AfterLoad(server)) && Snapshot(server) == old(Snapshot(server))
      ensures r == Deleted ==>
        files == old(AfterLoad(server))[Lower(server) := Remove(old(Snapshot(server)), category, name).value]
      ensures old(CategoriesFilled()) ==> CategoriesFilled()
    {
      var inventory := LoadInventory(server);
      match Remove(inventory, category, name)
      case Some(updated) =>
        if CategoriesFilled() {
          RemoveKeepsCategories(inventory, category, name);
        }
        SaveInventory(server, updated);
        return Deleted;
      case None =>
        return NotFound;
    }

    /** `RemoveItemSelect.callback` (ShopBot.py:206-228): the same delete, for the admin who
        opened the menu only. */
    method RemoveItemSelected(actor: UserId, menuOwner: UserId, server: string, category: string, name: string)
      returns (r: DeleteResult)
      requires Valid()
      modifies this`files
      ensures Valid()
      ensures actor != menuOwner ==> r == Unauthorized && files == old(files)
      ensures actor == menuOwner ==> r == if Has(old(Snapshot(server)), category, name) then Deleted else NotFound
      ensures r == NotFound ==> files == old(AfterLoad(server)) && Snapshot(server) == old(Snapshot(server))
      ensures r == Deleted ==>
        files == old(AfterLoad(server))[Lower(server) := Remove(old(Snapshot(server)), category, name).value]
      ensures old(CategoriesFilled()) ==> CategoriesFilled()
    {
      if actor != menuOwner {
        return Unauthorized;
      }
      r := DeleteItem(server, category, name);
    }

    /** `EditItemModal.on_submit` (ShopBot.py:762-786). A changed name moves the entry; a
        `KeyError` (category or old entry gone) saves nothing. */
    method EditItemSubmit(server: string, category: string, oldName: string, nameText: string,
                          price: Option<real>, stock: Option<int>, imageText: string) returns (r: EditResult)
      requires Valid()
      modifies this`files
      ensures Valid()
      ensures r == EditBadNumber <==> price.None? || stock.None?
      ensures price.None? || stock.None? ==> files == old(files)
      ensures price.Some? && stock.Some? ==>
        var edited := Edit(old(Snapshot(server)), category, oldName, Strip(nameText),
                           ItemInfo(price.value, stock.value, Strip(imageText)));
        (r == EditKeyError <==> edited.None?) &&
        (r == EditKeyError ==> files == old(AfterLoad(server))) &&
        (r == Updated ==> files == old(AfterLoad(server))[Lower(server) := edited.value])
      ensures old(CategoriesFilled()) ==> CategoriesFilled()
    {
      if price.None? || stock.None? {
        return EditBadNumber;
      }
      var inventory := LoadInventory(server);
      var newName := Strip(nameText);
      var info := ItemInfo(price.value, stock.value, Strip(imageText));
      match Edit(inventory, category, oldName, newName, info)
      case None =>
        return EditKeyError;
      case Some(updated) =>
        assert Lower(server) in ServerNames;
        if CategoriesFilled() {
          EditKeepsCategories(inventory, category, oldName, newName, info);
        }
        SaveInventory(server, updated);
        return Updated;
    }

    /** `ViewItemsButton.callback` and `CategoryListView` (ShopBot.py:395-421): the categories of
        the user's server, sorted. */
    method ViewItems(user: UserId) returns (r: BrowseResult)
      requires Valid()
      modifies this`files
      ensures Valid()
      ensures var cart := old(CartOf(user));
        if user !in old(carts) || cart.server.None? || cart.server.value == "" then
          r == NeedServer && files == old(files)
        else
          files == old(AfterLoad(cart.server.value)) &&
          var inv := old(Snapshot(cart.server.value));
          r == if inv == map[] then EmptyShop else Categories(SortedKeys(inv.Keys))
      ensures old(CategoriesFilled()) ==> CategoriesFilled()
    {
      if user !in carts || carts[user].server.None? || carts[user].server.value == "" {
        return NeedServer;
      }
      var inventory := LoadInventory(carts[user].server.value);
      if inventory == map[] {
        return EmptyShop;
      }
      return Categories(SortedKeys(inventory.Keys));
    }

    /** `CategoryButton.callback` (ShopBot.py:432-447): the category's items with stock left. */
    method BrowseCategory(actor: UserId, buttonOwner: UserId, server: string, category: string)
      returns (r: CategoryResult)
      requires Valid()
      modifies this`files
      ensures Valid()
      ensures actor != buttonOwner ==> r == NotYourButton && files == old(files)
      ensures actor == buttonOwner ==>
        files == old(AfterLoad(server)) &&
        var shown := InStock(ItemsOf(old(Snapshot(server)), category));
        r == if shown == map[] then NoneAvailable else Offer(shown)
      ensures old(CategoriesFilled()) ==> CategoriesFilled()
    {
      if actor != buttonOwner {
        return NotYourButton;
      }
      var inventory := LoadInventory(server);
      var available := InStock(ItemsOf(inventory, category));
      if available == map[] {
        return NoneAvailable;
      }
      return Offer(available);
    }

    /** `AddToCartButton.callback` (ShopBot.py:495-498): appends one line to the button owner's
        cart, whoever clicks, with no stock check and no merging of equal lines. */
    method AddToCart(buttonOwner: UserId, name: string, category: string)
      requires Valid()
      modifies this`carts
      ensures Valid()
      ensures carts == old(carts)[buttonOwner := UserCart(old(CartOf(buttonOwner)).server,
                                                          old(CartOf(buttonOwner)).items + [CartLine(name, category)])]
    {
      var cart := CartOf(buttonOwner);
      carts := carts[buttonOwner := UserCart(cart.server, cart.items + [CartLine(name, category)])];
    }

    /** `ViewCartButton.callback` (ShopBot.py:505-528). A cart that has items but no server
        makes `load_inventory(None)` raise; that is `NoServerSet`. */
    method ViewCart(user: UserId) returns (r: CartViewResult)
      requires Valid()
      modifies this`files
      ensures Valid()
      ensures var cart := old(CartOf(user));
        if cart.items == [] then r == EmptyCart && files == old(files)
        else if cart.server.None? then r == NoServerSet && files == old(files)
        else
          var inv, gs := old(Snapshot(cart.server.value)), Tally(cart.items);
          files == old(AfterLoad(cart.server.value)) && r.CartView? &&
          |r.lines| == |gs| && (forall i :: 0 <= i < |gs| ==> r.lines[i] == ViewOf(inv, gs[i])) &&
          r.total == LineTotal(inv, cart.items)
      ensures old(CategoriesFilled()) ==> CategoriesFilled()
    {
      var cart := CartOf(user);
      if cart.items == [] {
        return EmptyCart;
      }
      if cart.server.None? {
        return NoServerSet;
      }
      var inventory := LoadInventory(cart.server.value);
      var counts := Tally(cart.items);
      var desc, total := Describe(inventory, counts);
      TallyTotal(inventory, cart.items);
      return CartView(desc, total);
    }

    /** `ConfirmOrderButton.callback` (ShopBot.py:584-653). `here` is the channel the button was
        pressed in, `newId` the id the gateway gives the order channel, `hereDeleted` whether the
        final `user_channel.delete()` went through. */
    method ConfirmOrder(owner: UserId, memberName: string, here: ChannelId, newId: ChannelId, hereDeleted: bool)
      returns (r: ConfirmResult)
      requires Valid()
      requires here in channels && newId !in channels
      modifies this`files, this`carts, this`receipts, this`channels
      ensures Valid()
      ensures var cart := old(CartOf(owner));
        (r == NothingToConfirm <==> owner !in old(carts) || cart.items == [] || cart.server.None? || cart.server.value == "") &&
        (r == NothingToConfirm ==> files == old(files))
      ensures !r.Confirmed? ==> carts == old(carts) && receipts == old(receipts) && channels == old(channels)
      ensures r != NothingToConfirm ==>
        var cart := old(CartOf(owner));
        var server := cart.server.value;
        var inv, gs := old(Snapshot(server)), Tally(cart.items);
        files == old(AfterLoad(server)) &&
        (r.StaleItem? <==> exists i :: 0 <= i < |gs| && !Resolved(inv, gs[i])) &&
        (r.StaleItem? ==> exists i :: 0 <= i < |gs| && gs[i].line == r.line && !Resolved(inv, gs[i]) &&
                                      (forall j :: 0 <= j < i ==> Resolved(inv, gs[j]))) &&
        (r.BelowMinimum? ==> r.total == LineTotal(inv, cart.items) < MinimumOrder) &&
        (r.Confirmed? <==> (forall i :: 0 <= i < |gs| ==> Resolved(inv, gs[i])) && LineTotal(inv, cart.items) >= MinimumOrder)
      ensures r.Confirmed? ==>
        var cart := old(CartOf(owner));
        var server := cart.server.value;
        var inv, gs := old(Snapshot(server)), Tally(cart.items);
        var receipt := r.receipt;
        r.ticket == newId &&
        receipt == Receipt(owner, server, receipt.lines, LineTotal(inv, cart.items)) &&
        |receipt.lines| == |gs| &&
        (forall i :: 0 <= i < |gs| ==>
          receipt.lines[i] == ReceiptLine(gs[i].count, gs[i].line.name, PriceOf(inv, gs[i].line).value)) &&
        Quantity(receipt.lines) == |cart.items| &&
        carts == old(carts)[owner := UserCart(cart.server, [])] &&
        receipts == old(receipts)[newId := receipt] &&
        var withOrder := old(channels)[newId := Channel(OrderChannelName(server, memberName), OrderTicket(owner))];
        channels == if hereDeleted then withOrder - {here} else withOrder
      ensures old(CategoriesFilled()) ==> CategoriesFilled()
    {
      if owner !in carts || carts[owner].items == [] || carts[owner].server.None? || carts[owner].server.value == "" {
        return NothingToConfirm;
      }
      var items := carts[owner].items;
      var server := carts[owner].server.value;
      var inventory := LoadInventory(server);
      var counts := Tally(items);
      TallyTotal(inventory, items);
      var pricing := PriceOrder(inventory, counts);
      if pricing.Stale? {
        return StaleItem(pricing.line);
      }
      var lines, total := pricing.lines, pricing.total;
      if total < MinimumOrder {
        return BelowMinimum(total);
      }
      TallySum(items);
      QuantityOfGroups(lines, counts);
      var receipt := PlaceOrder(owner, memberName, here, newId, hereDeleted, lines, total);
      return Confirmed(newId, receipt);
    }

    /** The effects of an accepted order (ShopBot.py:616-653): the order channel is created, its
        receipt is kept under the new channel's id, the cart's items are cleared with its server
        kept, and the shop channel goes when its delete goes through. */
    method PlaceOrder(owner: UserId, memberName: string, here: ChannelId, newId: ChannelId, hereDeleted: bool,
                      lines: seq<ReceiptLine>, total: real) returns (receipt: Receipt)
      requires Valid()
      requires owner in carts && carts[owner].server.Some?
      requires here in channels && newId !in channels
      modifies this`carts, this`receipts, this`channels
      ensures Valid()
      ensures receipt == Receipt(owner, old(carts[owner]).server.value, lines, total)
      ensures carts == old(carts)[owner := UserCart(old(carts[owner]).server, [])]
      ensures receipts == old(receipts)[newId := receipt]
      ensures var withOrder := old(channels)[newId := Channel(OrderChannelName(receipt.server, memberName), OrderTicket(owner))];
        channels == if hereDeleted then withOrder - {here} else withOrder
    {
      var server := carts[owner].server.value;
      var ticketName := OrderChannelName(server, memberName);
      channels := channels[newId := Channel(ticketName, OrderTicket(owner))];
      receipt := Receipt(owner, server, lines, total);
      receipts := receipts[newId := receipt];
      carts := carts[owner := UserCart(carts[owner].server, [])];
      if hereDeleted {
        channels := channels - {here};
      }
    }

    /** `ServerButton.callback` (ShopBot.py:338-380). A binding to a live channel refuses a second
        shop ticket; a binding to a deleted channel is dropped and a new ticket is opened.
        `buttonOwner` 0 is the public button posted at start-up; the button keeps its server
        name lower-cased. */
    method OpenShop(buttonOwner: UserId, actor: UserId, memberName: string, server: string, newId: ChannelId)
      returns (r: OpenResult)
      requires Valid()
      requires newId !in channels
      modifies this`tickets, this`carts, this`channels
      ensures Valid()
      ensures r == NotYours <==> buttonOwner != 0 && actor != buttonOwner
      ensures r.AlreadyOpen? <==> r != NotYours && actor in old(tickets) && old(tickets)[actor] in old(channels)
      ensures r.AlreadyOpen? ==> r.existing == old(tickets)[actor]
      ensures !r.Opened? ==> tickets == old(tickets) && carts == old(carts) && channels == old(channels)
      ensures r.Opened? ==>
        r.created == newId &&
        channels == old(channels)[newId := Channel(ShopChannelName(Lower(server), memberName), ShopTicket(actor))] &&
        tickets == old(tickets)[actor := newId] &&
        carts == old(carts)[actor := UserCart(Some(Lower(server)), [])]
    {
      if buttonOwner != 0 && actor != buttonOwner {
        return NotYours;
      }
      if actor in tickets {
        if tickets[actor] in channels {
          return AlreadyOpen(tickets[actor]);
        }
        tickets := tickets - {actor};
      }
      var serverName := Lower(server);
      var ticketName := ShopChannelName(serverName, memberName);
      channels := channels[newId := Channel(ticketName, ShopTicket(actor))];
      tickets := tickets[actor := newId];
      carts := carts[actor := UserCart(Some(serverName), [])];
      return Opened(newId);
    }

    /** `shop_cmd` (ShopBot.py:657-681): points the user at their live shop ticket, or drops a
        stale binding and offers the server choice. */
    method ShopCommand(user: UserId, here: ChannelId) returns (r: ShopCommandResult)
      requires Valid()
      modifies this`tickets
      ensures Valid()
      ensures user in old(tickets) && old(tickets)[user] in channels ==>
        tickets == old(tickets) &&
        r == if here == old(tickets)[user] then AlreadyHere else OpenElsewhere(old(tickets)[user])
      ensures !(user in old(tickets) && old(tickets)[user] in channels) ==>
        r == ChooseServer && tickets == old(tickets) - {user}
    {
      if user in tickets {
        var existing := tickets[user];
        if existing in channels {
          if here == existing {
            return AlreadyHere;
          }
          return OpenElsewhere(existing);
        }
        tickets := tickets - {user};
      }
      return ChooseServer;
    }

    /** `CloseTicketButton.callback` (ShopBot.py:542-575). Without a `ticket-logs` channel nothing
        happens; otherwise the transcript is posted (as a file above 1900 characters) and only
        then is the channel deleted. `sent` is whether `log_channel.send` succeeded; when it
        raises, the callback stops there. */
    method CloseTicket(here: ChannelId, history: seq<Message>, sent: bool) returns (r: CloseResult)
      requires Valid()
      requires here in channels
      modifies this`channels, this`logPosts
      ensures Valid()
      ensures r == NoLogChannel <==> !HasLogChannel(old(channels))
      ensures r == SendFailed <==> HasLogChannel(old(channels)) && !sent
      ensures !r.Closed? ==> channels == old(channels) && logPosts == old(logPosts)
      ensures r.Closed? ==>
        var name := old(channels)[here].name;
        var text := Transcript(name, history);
        r.post == LogPost(name, text, DeliveryFor(text), if here in receipts then Some(receipts[here]) else None) &&
        logPosts == old(logPosts) + [r.post] &&
        channels == old(channels) - {here}
      ensures here !in channels <==> |logPosts| == |old(logPosts)| + 1
    {
      if !HasLogChannel(channels) {
        return NoLogChannel;
      }
      var name := channels[here].name;
      var text := BuildTranscript(name, history);
      if !sent {
        return SendFailed;
      }
      var receipt := if here in receipts then Some(receipts[here]) else None;
      var post := LogPost(name, text, DeliveryFor(text), receipt);
      logPosts := logPosts + [post];
      channels := channels - {here};
      return Closed(post);
    }

    /** A channel deleted from outside the bot (by a moderator, or the shop channel after an
        order). Bindings in `user_tickets` may then go stale; `OpenShop` and `ShopCommand`
        reconcile them. */
    method ChannelDeleted(c: ChannelId)
      requires Valid()
      modifies this`channels
      ensures Valid()
      ensures channels == old(channels) - {c}
    {
      channels := channels - {c};
    }

    /** At most one live shop ticket per user. */
    lemma OneShopTicketPerUser(c1: ChannelId, c2: ChannelId, user: UserId)
      requires Valid()
      requires c1 in channels && c2 in channels
      requires channels[c1].kind == ShopTicket(user) && channels[c2].kind == ShopTicket(user)
      ensures c1 == c2
    {
    }
  }

  /** A worked order: two apples at 2.50 group into one line of two, total exactly 5.00, and so
      clear the minimum. */
  lemma TwoApplesMeetTheMinimum()
    ensures var inv := map["fruit" := map["apple" := ItemInfo(2.5, 10, "")]];
      var apple := CartLine("apple", "fruit");
      Tally([apple, apple]) == [Group(apple, 2)] &&
      Resolved(inv, Group(apple, 2)) &&
      LineTotal(inv, [apple, apple]) == 5.0 && !(LineTotal(inv, [apple, apple]) < MinimumOrder)
  {
    var inv := map["fruit" := map["apple" := ItemInfo(2.5, 10, "")]];
    var apple := CartLine("apple", "fruit");
    var two, one := [apple, apple], [apple];
    assert two[..1] == one;
    assert one[..0] == [];
    assert Tally(one) == Bump([], apple) == [Group(apple, 1)];
    assert Tally(two) == Bump([Group(apple, 1)], apple) == [Group(apple, 2)];
    assert PriceOf(inv, apple) == Some(2.5);
    assert LineTotal(inv, one) == 2.5;
    assert LineTotal(inv, two) == 5.0;
  }
}
