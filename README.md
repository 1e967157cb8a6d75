# ShopBot state engine in Dafny

This project models the state engine behind ShopBot, a Discord bot that runs a shop for two
Minecraft servers (`2b2t` and `constantiam`). Admins edit a per-server inventory through modal
forms and menus. Customers open a private shop ticket, browse categories, add items to a cart,
view the cart and confirm an order. A confirmed order opens an order ticket that holds a receipt.
Closing a ticket posts its transcript to a `ticket-logs` channel.

The model has six modules:

- `Wrappers`: `Option`.
- `Text`:
  - Python's `str.strip()`, using the full `isspace()` set;
  - ASCII `lower()` and `replace(" ", "-")`, which give ticket channel names;
  - the code-point ordering that `sorted()` applies to category names.
- `Catalog`: the two-level inventory map (category → item → price, stock, image) as pure
  functions. Add, delete-with-pruning and edit/rename are included, plus the stock > 0 browse
  filter.
- `Cart`:
  - `Counter` grouping of cart lines, as an insertion-ordered sequence of groups.
  - Each group is re-resolved against the live inventory.
  - Two imperative loops, cart view and order pricing, are proved against the total
    functions.
- `Tickets`: ticket channel names, the transcript-building loop and the 1900-character file or
  inline choice.
- `ShopBot`: class `Shop` holds:
  - the module-level tables `user_carts`, `user_tickets` and `ticket_receipts`;
  - the inventory files, as a map from server name to stored inventory;
  - the guild's live text channels;
  - the posts made to `ticket-logs`.

  Each interaction callback is one method. Anything the gateway decides is a parameter of the
  method:
  - the id of a newly created channel;
  - the fetched message history;
  - whether a send or a delete went through.

The invariant `Shop.Valid()` says that only the two known servers have files. It also says every
live shop ticket is the channel its owner is bound to in `user_tickets`. Every callback preserves
it, so no user ever holds two live shop tickets, when callbacks run one at a time. A second
predicate, `Shop.CategoriesFilled()`, says that no stored inventory has an empty category. Files
the bot did not write may break it, so it is not part of `Valid()`. Every callback that writes a
file keeps it once it holds.

Behaviours of the code that a reader might not expect, all modelled as written:

- Add and edit do not check that the price or the stock is non-negative.
- Confirming an order checks only that each item still exists. Stock is neither checked nor
  decremented.
- `ServerButton` always resets the user's cart to `{server, []}`, even when a cart with items
  already exists.
- `AddToCartButton` works on the button owner's cart, whoever clicks. For a user without a cart
  it creates `{'server': None, 'items': [...]}`. Viewing that cart then calls
  `load_inventory(None)`, which raises. The model calls that outcome `NoServerSet`.
- The transcript send can fail in `CloseTicketButton`. When it does, the exception leaves the
  callback and the channel is not deleted.
- `load_inventory` writes an empty file for a known server that has none. So even a read-only
  browse can add a file.
- `AddItemModal` reads the file by the exact server key. It leaves the file missing when it
  fails, and does not lower-case the key.
- The edit modal raises `KeyError` when the category is gone, or when the name changed and the
  old entry is gone. When the name is unchanged and the entry is gone, it writes the entry.

## Model

| member | source | states |
|---|---|---|
| Text.TrimStartShape | ShopBot.py:71-79 | stripping the front leaves a suffix that does not start with whitespace; everything dropped was whitespace |
| Text.TrimEndShape | ShopBot.py:71-79 | stripping the back leaves a prefix that does not end with whitespace; everything dropped was whitespace |
| Text.Strip | ShopBot.py:77-79 | `str.strip()`: drops leading whitespace, then trailing whitespace (StripShape states what that leaves) |
| Text.StripShape | ShopBot.py:77-79 | `strip()` returns a contiguous slice of its input with no whitespace at either end, and only whitespace was cut |
| Text.StripIdempotent | ShopBot.py:77-79 | stripping an already stripped field changes nothing |
| Text.Lower | ShopBot.py:358 | lower-casing keeps the length and lower-cases every ASCII capital, position by position |
| Text.DashSpaces | ShopBot.py:358 | `replace(" ", "-")` keeps the length and turns exactly the spaces into dashes |
| Text.ChannelName | ShopBot.py:358 | `.lower().replace(" ", "-")` over ASCII: lower-case, then turn spaces into dashes (ChannelNameShape states the result) |
| Text.ChannelNameShape | ShopBot.py:358 | a normalised channel name has the input's length, contains no space and no ASCII capital, and keeps every other character lower-cased in place |
| Text.ChannelNameIdempotent | ShopBot.py:358 | normalising an already normal channel name changes nothing |
| Text.LexTotal | ShopBot.py:415 | any two strings are comparable under Python's string order |
| Text.LexAntisymmetric | ShopBot.py:415 | two strings that are each `<=` the other are equal |
| Text.LexTransitive | ShopBot.py:415 | the string order is transitive |
| Text.LeastExists | ShopBot.py:415 | every non-empty set of category names has a least name |
| Text.LeastUnique | ShopBot.py:415 | that least name is unique |
| Text.SortedKeys | ShopBot.py:415 | `sorted(keys)` lists exactly the set's names, each once, in strictly ascending order |
| Catalog.Upsert | ShopBot.py:81-87 | the item holds exactly the new entry; its category exists afterwards; every other category and item is unchanged |
| Catalog.Remove | ShopBot.py:214-217 | `None` exactly when the item is absent; otherwise only that item is gone, its category is dropped iff it became empty, and all else is unchanged |
| Catalog.Edit | ShopBot.py:770-780 | `KeyError` exactly when the category is gone, or the name changed and the old entry is gone; otherwise the new name holds the entry, the old name is gone when it differs, and the other categories and items are unchanged |
| Catalog.InStock | ShopBot.py:440-443 | the browse filter keeps exactly the items with positive stock, unchanged |
| Catalog.UpsertKeepsCategories | ShopBot.py:81-87 | adding keeps "every category has at least one item" |
| Catalog.RemoveKeepsCategories | ShopBot.py:214-217 | deleting keeps "every category has at least one item" |
| Catalog.EditKeepsCategories | ShopBot.py:770-780 | a successful edit keeps "every category has at least one item" |
| Catalog.RemoveUndoesUpsert | ShopBot.py:81-87 | deleting a newly added item restores the inventory, including removal of a category the add created |
| Catalog.UpsertUndoesRemove | ShopBot.py:214-217 | re-adding a deleted item with its old entry restores the inventory |
| Catalog.EditIsRemoveThenUpsert | ShopBot.py:770-780 | editing an existing entry is the same as deleting the old name and then adding the new one |
| Catalog.UpsertVisibleIffStocked | ShopBot.py:440-443 | after an add, the browse view shows the item iff its new stock is positive |
| Cart.FirstIndex | ShopBot.py:514 | the index of the first occurrence of a line |
| Cart.FirstIndexSnoc | ShopBot.py:514 | appending a line does not move any earlier first occurrence |
| Cart.Bump | ShopBot.py:514 | one `counts[line] += 1` on an insertion-ordered counter: the line's group grows by one, or a group of one is appended at the end |
| Cart.Tally | ShopBot.py:514 | `Counter(...)` over the cart: the lines counted one after the other from an empty counter |
| Cart.BumpKeys | ShopBot.py:514 | counting one more line either keeps the key order or appends the new key at the end |
| Cart.BumpCount | ShopBot.py:514 | counting one more line raises that line's count by one and leaves every other count unchanged |
| Cart.BumpSum | ShopBot.py:514 | counting one more line raises the sum of counts by one |
| Cart.TallyKeys | ShopBot.py:514 | the counter's keys are exactly the cart's distinct lines, in order of first occurrence |
| Cart.TallyDistinct | ShopBot.py:514 | no two groups share a line |
| Cart.TallyCounts | ShopBot.py:514 | each line's count is its number of occurrences in the cart |
| Cart.TallySum | ShopBot.py:593 | the group counts add up to the cart's length |
| Cart.CountOfDistinct | ShopBot.py:514 | in a tally without duplicates, a line's counter value is its group's count |
| Cart.GroupCountIsOccurrences | ShopBot.py:514 | every group's count is the positive number of occurrences of its line |
| Cart.GroupTotal | ShopBot.py:518-521 | sum over the groups of price times count, where an unresolved group adds 0 |
| Cart.GroupTotalSnoc | ShopBot.py:518-521 | adding one more group to the total adds that group's subtotal |
| Cart.BumpTotal | ShopBot.py:518-521 | counting one more line adds its live price to the grouped total, or 0 when it does not resolve |
| Cart.TallyTotal | ShopBot.py:513-526 | the grouped total equals the per-line total: every resolved line at its live price, unresolved lines at 0 |
| Cart.Describe | ShopBot.py:518-524 | the cart-view loop yields one view line per group in group order, "no longer exists" for unresolved groups, and the total over resolved groups |
| Cart.PriceOrder | ShopBot.py:597-607 | the pricing loop stops at the first unresolved group, and stops iff some group is unresolved; otherwise it yields one receipt line per group and the grouped total |
| Cart.QuantityOfGroups | ShopBot.py:600-601 | receipt line counts copied from the groups add up to the groups' total count |
| Tickets.ShopChannelName | ShopBot.py:358 | the shop ticket name: `{server}-shop-{member}`, normalised |
| Tickets.OrderChannelName | ShopBot.py:617 | the order ticket name: `{server}-ticket-{member}`, normalised |
| Tickets.TicketNamesHaveNoSpaces | ShopBot.py:358 | shop and order ticket names contain no space and no ASCII capital |
| Tickets.OrderNameDiffersFromShopName | ShopBot.py:617 | a user's order ticket name never equals the name of their shop ticket on the same server |
| Tickets.Lines | ShopBot.py:554-556 | one `[stamp] author: content` line per message, in history order |
| Tickets.Concat | ShopBot.py:556 | the lines appended one after the other, as the `+=` loop builds them |
| Tickets.Transcript | ShopBot.py:553-556 | the `Transcript for` header, then the log lines, oldest first |
| Tickets.ConcatSnoc | ShopBot.py:556 | appending one more line adds exactly that line to the log |
| Tickets.BuildTranscript | ShopBot.py:553-556 | the loop builds the header, then one `[stamp] author: content` line per message, oldest first |
| Tickets.ConcatSplit | ShopBot.py:556 | the log is the lines before line i, then line i, then the lines after it |
| Tickets.TranscriptKeepsOrder | ShopBot.py:553-556 | message i's line sits in the transcript right after the header and the lines of the messages before it |
| Tickets.ConcatLength | ShopBot.py:556 | lines of at least n characters each make a log of at least n characters per line |
| Tickets.LogLinesLength | ShopBot.py:556 | every log line takes at least six characters, so the log has at least six per message |
| Tickets.DeliveryFor | ShopBot.py:559-571 | a file attachment when the transcript is longer than 1900 characters, inline otherwise |
| Tickets.LongHistoryGoesToFile | ShopBot.py:559-567 | a history of more than 316 messages is always delivered as a file |
| ShopBot.Shop.constructor | ShopBot.py:18-25 | the process starts with empty tables; the existing files of known servers are loaded; and every existing channel is an ordinary (non-ticket) channel; `CategoriesFilled()` holds when no file on disk has an empty category |
| ShopBot.Shop.LoadInventory | ShopBot.py:309-317 | returns the stored file, or `{}` for an unknown server or a missing file; writes `{}` only for a known server without a file; keeps `CategoriesFilled()`, and then the returned inventory has no empty category |
| ShopBot.Shop.SaveInventory | ShopBot.py:319-324 | overwrites a known server's file with the data; does nothing for an unknown server; keeps `CategoriesFilled()` when the data has no empty category |
| ShopBot.Shop.AddItemSubmit | ShopBot.py:56-94 | an unknown server or an unparsable number saves nothing; otherwise the file becomes the add of the stripped entry into the stored inventory, and no other file changes; keeps `CategoriesFilled()` |
| ShopBot.Shop.DeleteItem | ShopBot.py:893-911 | deletes iff the item exists; a missing item saves nothing beyond the load; a delete saves exactly `Remove` of the loaded inventory; keeps `CategoriesFilled()` |
| ShopBot.Shop.RemoveItemSelected | ShopBot.py:206-228 | only the admin who opened the menu may delete; otherwise it behaves as DeleteItem; keeps `CategoriesFilled()` |
| ShopBot.Shop.EditItemSubmit | ShopBot.py:762-786 | the result is `EditBadNumber` iff a number does not parse, and then nothing is saved; a `KeyError` occurs exactly when `Edit` fails, and then nothing beyond the load is saved; otherwise `Edit` of the loaded inventory is saved; keeps `CategoriesFilled()` |
| ShopBot.Shop.ViewItems | ShopBot.py:395-421 | without a chosen server, the user is asked to pick one; an empty inventory is reported; otherwise the categories are listed sorted; keeps `CategoriesFilled()` |
| ShopBot.Shop.BrowseCategory | ShopBot.py:432-447 | only the button owner is served; exactly the category's items with positive stock are offered, or "none available"; keeps `CategoriesFilled()` |
| ShopBot.Shop.AddToCart | ShopBot.py:495-498 | the button owner's cart gets exactly one more line, at the end, with its server and earlier lines kept, and is created when absent; no other cart changes |
| ShopBot.Shop.ViewCart | ShopBot.py:505-528 | an empty cart and a cart without a server are reported; otherwise there is one view line per distinct cart line, and the total is the per-line total of the cart over the live inventory; keeps `CategoriesFilled()` |
| ShopBot.Shop.ConfirmOrder | ShopBot.py:584-653 | nothing to confirm iff the cart is missing or empty or has no server. The order is refused at the first unresolved group, or when the total is below 5.00, and then the carts, receipts and channels are unchanged. On success the order ticket is created, the receipt has one line per distinct cart line with counts summing to the cart's length, the cart's items are cleared with its server kept, and `user_tickets` is untouched; keeps `CategoriesFilled()` |
| ShopBot.Shop.PlaceOrder | ShopBot.py:616-653 | an accepted order creates the order channel, keeps the receipt under its id, clears the cart's items with its server kept, and removes the shop channel iff its delete went through; `user_tickets` and the files are untouched |
| ShopBot.Shop.OpenShop | ShopBot.py:338-380 | another user's button is refused; a binding to a live channel refuses a second ticket and changes nothing; otherwise the stale binding is replaced by the new shop ticket, and the cart becomes `{server, []}` with the server name lower-cased |
| ShopBot.Shop.ShopCommand | ShopBot.py:657-681 | a live binding is reported (here or elsewhere) and kept; a missing or stale binding is dropped and the server choice offered |
| ShopBot.Shop.CloseTicket | ShopBot.py:542-575 | without `ticket-logs`, nothing is posted or deleted; a failed send deletes nothing; otherwise the transcript is posted with the stored receipt (as a file iff it is over 1900 characters), and only then is the channel deleted |
| ShopBot.Shop.ChannelDeleted | ShopBot.py:651 | a channel deleted from outside the bot disappears, and the ticket invariant still holds |
| ShopBot.Shop.OneShopTicketPerUser | ShopBot.py:347-370 | under the invariant, no user has two live shop tickets |
| ShopBot.TwoApplesMeetTheMinimum | ShopBot.py:609 | two 2.50 items group into one line of two, whose total of exactly 5.00 is accepted |

## Left out

- Discord UI: views, buttons, selects, modals, embeds, colours and message texts. Only the outcome of each callback is modelled, as a result datatype.
- `on_ready` channel set-up and history clean-up (ShopBot.py:254-298). These are gateway plumbing.
- Permission decorators. The admin commands are modelled only through their callbacks, with no admin check.
- The category and server selection menus that lead to the add, delete and edit forms. They only pass values along.
- `setup` (ShopBot.py:305-306) is dead code that references an undefined name. Also left out: the unused `sqlite3` import, the shadowed first `ServerSelectView` (ShopBot.py:123-127), and `bot.run`.
- Real file and JSON I/O: the files are a map from server name to inventory. Also left out: the temporary transcript file (ShopBot.py:560-567) and the `json.dump` layout.
- The duplicate `load_inventory`/`save_inventory` at ShopBot.py:804-819 is the same code as ShopBot.py:309-324, so one model covers both.
- Floating point: prices are exact reals, so the `< 5.0` check is exact. `:.2f` formatting is left out.
- `float()` and `int()` parsing: their result arrives as an `Option` parameter, with `None` for a `ValueError`.
- `strftime` timestamps and message author rendering: each message carries them as strings.
- Text.Lower: lower-cases ASCII letters only, not the full Unicode mapping of `str.lower()`.
- Concurrency: interleaving across `await` points and last-write-wins between admins; `asyncio.sleep`.
- Gateway failures, except the transcript send and the shop-channel delete after an order, which are parameters. Also `guild.get_member` returning `None`.
- One guild: the bot serves a single guild.
- Dictionary order: maps are unordered. The cart's `Counter` order is modelled; the inventory's own key order is not, so the offer list is a map.
- ShopBot.Shop.ChannelDeleted: models the environment (a moderator, or the post-order delete), not a callback of the bot.
- ShopBot.Shop.OpenShop: when creation fails, the binding has already been popped. The model only covers successful creation.
