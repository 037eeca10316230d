# Banat storefront: pages of the shop, modelled in Dafny

Banat is a small online shop for the Mauritanian market. Prices are whole numbers of ouguiya
(MRU). Orders leave the site as a WhatsApp message. This project models the logic of five of the
shop's pages and proves what that logic guarantees:

- **Cart** (`Cart.dfy`). The cart page keeps a list of line items. The plus and minus buttons,
  the remove button and `updateQuantity` rewrite that list. `getTotalPrice` folds it into
  the exact total. At checkout the items become an order text, which is URI-encoded into a
  `wa.me` address.
- **Product page** (`Product.dfy`). It fetches one product, sorts its images by `sort_order`,
  and shows one of three branches: loading, not found, or the details. The details cover the
  star row, rating count, short description, admin edit button, image box and thumbnail strip,
  price, description and video section.
- **Video** (`YouTube.dfy`). `renderVideo` takes the video id out of a `youtube.com/watch?v=` or
  `youtu.be/` address with `split`. It embeds that id, or plays the address as a direct file
  with the first image as poster.
- **Product card** (`ProductCard.dfy`). The card sorts its product's image array in place and
  takes the first url as the picture. It also draws the star row, the rating count when
  positive, the price and the `/product/<id>` link.
- **Sign-in page** (`Auth.dfy`). The form checks for empty fields, calls sign-in or sign-up
  depending on the mode, maps the provider's error text to an Arabic message, switches back to
  sign-in after a successful sign-up, and navigates home after a sign-in.
- **Home page** (`BanatIndex.dfy`). It tracks the session user and the admin flag, which comes
  from a deferred `profiles` role lookup. It also covers the featured-product fetch, sign-out,
  the category and product dialogs, and the conditions under which admin controls appear.

Shared pieces:

- `Text.dfy` contains the JavaScript string operations the pages use: `includes`, `split`,
  `join`, and `${n}` for integers, with the first-occurrence search that `includes` and `split`
  are built on.
- `Rating.dfy` contains the five-star loop, with JavaScript's `%` written out.
- `Images.dfy` contains the in-place sort by `sort_order`.
- `Money.dfy` contains `formatPrice`.

How the code is represented:

- Each page whose React state changes becomes a `class`. Its fields are the `useState`
  variables, and its methods are the handlers.
- Pure rendering logic becomes functions. A `for` loop or an in-place sort in the code stays a
  method with a loop.
- Remote answers are method parameters: the database queries, the identity provider and the
  sign-out call. An `async` handler that awaits one is split at the `await` where both halves
  matter (`BeginSubmit` / `FinishSubmit`).
- The locale-dependent `toLocaleString` is a function parameter `render`, and
  `encodeURIComponent` is a parameter `encode`. The proofs assume nothing about them, except
  where a lemma states that `render` produces no line break.

Two behaviours of the code that a reader might not expect, and that the model keeps:

- The guest contact fields on the cart page are collected but never put into the order message
  (`src/pages/Cart.tsx:61-70` builds the message from the items alone).
- The product page's "add to cart" button only shows a confirmation
  (`src/pages/Product.tsx:93-97`). It adds nothing to any cart.

## Model

| member | source | states |
|---|---|---|
| Text.IndexFrom | src/pages/Product.tsx:101-106 | the result is the first position at or after `from` where the pattern occurs, or None when it occurs nowhere from there on |
| Text.OccursAtSlice | src/pages/Product.tsx:101-106 | a slice equal to the pattern is an occurrence |
| Text.IncludesIff | src/pages/Product.tsx:101-105 | `includes` holds exactly when the pattern occurs at some position |
| Text.Includes | src/pages/Product.tsx:101-105 | a string includes only patterns no longer than itself, and always includes the empty pattern |
| Text.IndexFromFirst | src/pages/Product.tsx:104 | an occurrence with none before it is the one the search returns |
| Text.IncludesChar | src/pages/Product.tsx:104 | a one-character pattern is included exactly when the character is in the string |
| Text.IncludesTransitive | src/pages/Product.tsx:101-105 | a string that includes `t` includes everything `t` includes |
| Text.IncludesMiddle | src/pages/Product.tsx:101-105 | `a + t + b` includes `t` |
| Text.NoLeadNoOccurrence | src/pages/Product.tsx:101-105 | a string lacking the pattern's first character does not include the pattern |
| Text.IncludesLead | src/pages/Auth.tsx:39-41 | a string that includes a pattern contains the pattern's first character |
| Text.IncludesPrefix | src/pages/Product.tsx:101-105 | a string includes each of its prefixes |
| Text.Split | src/pages/Product.tsx:104-106 | `split` with a non-empty separator always yields at least one piece |
| Text.SplitAtChar | src/pages/Product.tsx:104 | cut at one character, the first piece ends just before the first place that character stands |
| Text.SplitHead | src/pages/Product.tsx:104-106 | the first piece is a prefix and holds no separator; without a separator the split is the whole string |
| Text.SecondPiece | src/pages/Product.tsx:104 | `split(sep)[1]` is undefined exactly when the separator does not occur |
| Text.SecondPieceSpec | src/pages/Product.tsx:104 | the second piece starts right after the first separator and holds no separator |
| Text.Join | src/pages/Cart.tsx:63-65 | the join of a non-empty list starts with its first part |
| Text.JoinAppend | src/pages/Cart.tsx:63-65 | joining two non-empty lists puts exactly one separator between their joins |
| Text.SplitJoin | src/pages/Cart.tsx:63-67 | splitting a join on a one-character separator gives the parts back, when no part holds that character |
| Text.Digit | src/pages/Cart.tsx:64 | a digit value maps to a character from `0` to `9` |
| Text.DigitValue | src/pages/Cart.tsx:64 | a digit character maps to a value below ten |
| Text.NatToString | src/pages/Cart.tsx:64 | the rendering of a natural number is a non-empty string of decimal digits |
| Text.ParseNatToString | src/pages/Cart.tsx:64 | reading the numeral back gives the number that was rendered |
| Text.IntToString | src/pages/Cart.tsx:64 | a non-negative integer renders as a non-empty string of digits; a negative one as a minus sign followed by such a string |
| Text.IntToStringHasNoNewline | src/pages/Cart.tsx:64 | the rendered quantity never holds a line break |
| Money.FormatPrice | src/pages/Cart.tsx:57-59 | the price text is the rendered number followed by the currency, each recoverable by position |
| Rating.Trunc | src/pages/Product.tsx:79 | the result is the integer next to the number on the side of zero: within one below a non-negative number, within one above a negative one |
| Rating.JsRemainderOne | src/pages/Product.tsx:79 | `rating % 1` lies in [0, 1) for non-negative ratings and in (-1, 0] for negative ones |
| Rating.Stars | src/pages/Product.tsx:74-91 | the row has five glyphs, glyph i being the one the loop body chooses for position i |
| Rating.RenderRating | src/components/ProductCard.tsx:26-41 | the loop pushes exactly the row `Stars(rating)` |
| Rating.GlyphAt | src/pages/Product.tsx:78-88 | a position is full exactly when it is below `floor(rating)`, and only position `floor(rating)` can be half |
| Rating.HalfIff | src/pages/Product.tsx:84 | for a non-negative rating, a position is half exactly when it is `floor(rating)` and the fraction is at least one half |
| Rating.NegativeIsEmpty | src/pages/Product.tsx:78-88 | a negative rating draws no filled star |
| Rating.AtMostOneHalf | src/pages/Product.tsx:84 | at most one position is half |
| Rating.FilledFromLeft | src/pages/Product.tsx:81-89 | every position before a non-empty glyph is full |
| Rating.Row | src/pages/Product.tsx:81-89 | the row from a position on has the right length and the glyph of each position |
| Rating.FullCountFrom | src/pages/Product.tsx:81-89 | the full glyphs from a position on number `floor(rating)` minus that position, clamped |
| Rating.FullCount | src/pages/Product.tsx:78-89 | the row shows `floor(rating)` full stars, clamped to 0..5 |
| Rating.Samples | src/pages/Product.tsx:78-89 | 3.5 draws three full, one half and one empty star; 0 draws none; 5 draws five |
| Images.SortedHeadIsLeast | src/components/ProductCard.tsx:19-20 | the first image of a sorted list has the least `sort_order` |
| Images.Swap | src/pages/Product.tsx:53 | exchanges two entries and keeps the same images |
| Images.SortBySortOrder | src/pages/Product.tsx:53 | after the in-place sort the array is in ascending `sort_order` and holds the same images (a permutation) |
| YouTube.Extract | src/pages/Product.tsx:104-106 | the extracted id never holds the cut character |
| YouTube.WatchId | src/pages/Product.tsx:104 | a watch id never holds `&` |
| YouTube.ShortId | src/pages/Product.tsx:106 | a short id never holds `?` |
| YouTube.VideoId | src/pages/Product.tsx:102-107 | an id only comes from an address with the watch or the short marker; it stops before the watch form's `&` or the short form's `?` |
| YouTube.SplitHeadNoChar | src/pages/Product.tsx:104-106 | the piece before the first cut character holds no such character |
| YouTube.RenderVideo | src/pages/Product.tsx:99-131 | the player is embedded exactly for a YouTube host with a non-empty id, on the embed address of that id; otherwise the address plays as a file with the given poster |
| YouTube.EmbedIffId | src/pages/Product.tsx:101-109 | the host test never rejects an address that yields an id, so the player is embedded exactly when the id is non-empty |
| YouTube.FirstAfter | src/pages/Product.tsx:104 | in `pre + sep + rest`, the first separator is the one after `pre` when `pre` holds none |
| YouTube.NoneThrough | src/pages/Product.tsx:104 | in `id + [c] + query`, no separator starts at or before the cut character |
| YouTube.ExtractRoundTrip | src/pages/Product.tsx:104-106 | an id placed after the first separator of an address is taken back out unchanged |
| YouTube.ExtractRoundTripQuery | src/pages/Product.tsx:104-106 | the same holds when the id is followed by the cut character and further query text |
| YouTube.PieceReachesCut | src/pages/Product.tsx:104 | the piece after the separator runs at least through the cut character |
| YouTube.CutAtFirst | src/pages/Product.tsx:104 | that piece is cut back to the id at its first cut character |
| YouTube.WatchFormEmbeds | src/pages/Product.tsx:103-112 | an address with the watch marker and a non-empty watch id embeds that id |
| YouTube.ShortFormEmbeds | src/pages/Product.tsx:105-112 | an address without the watch marker, with the short marker and a non-empty short id, embeds that id |
| YouTube.WatchIdAfter | src/pages/Product.tsx:104 | the watch id after a prefix without `v` is taken back out |
| YouTube.WatchUrlId | src/pages/Product.tsx:104 | `https://www.youtube.com/watch?v=<id>` yields `<id>` |
| YouTube.WatchUrlEmbeds | src/pages/Product.tsx:101-112 | `https://www.youtube.com/watch?v=<id>` embeds `https://www.youtube.com/embed/<id>` |
| YouTube.ShortIdAfter | src/pages/Product.tsx:106 | the short id after a prefix without `y` is taken back out |
| YouTube.ShortUrlId | src/pages/Product.tsx:106 | `https://youtu.be/<id>` yields `<id>` |
| YouTube.ShortAfterEmbeds | src/pages/Product.tsx:105-112 | a short address whose prefix holds neither `y` nor `?` embeds its id |
| YouTube.ShortAddressHasNoQuestion | src/pages/Product.tsx:106 | a short address built without `?` holds none |
| YouTube.ShortUrlEmbeds | src/pages/Product.tsx:101-112 | `https://youtu.be/<id>` embeds `https://www.youtube.com/embed/<id>` |
| YouTube.NoQuestionNoWatch | src/pages/Product.tsx:103-105 | an address without `?` never takes the watch branch |
| Cart.WithQuantitySpec | src/pages/Cart.tsx:42-46 | the quantity rewrite keeps length and order, and changes only the quantity of the items with the id |
| Cart.RemovedSpec | src/pages/Cart.tsx:49-51 | removal keeps, in order, exactly the items with another id, shortens the list by the number of items with the id, and is a no-op when the id is absent |
| Cart.Removed | src/pages/Cart.tsx:50 | the filtered list is no longer than the cart and holds no item with the id |
| Cart.SubsequenceDropHead | src/pages/Cart.tsx:50 | a subsequence of a list's tail is a subsequence of the list |
| Cart.SubsequenceTail | src/pages/Cart.tsx:50 | dropping the head of a subsequence leaves a subsequence |
| Cart.WithQuantity | src/pages/Cart.tsx:43-45 | the rewritten list has as many items as the cart |
| Cart.RewritesKeepQuantitiesPositive | src/pages/Cart.tsx:36-51 | removal, and a rewrite to a positive quantity, keep every quantity at least one |
| Cart.Reduce | src/pages/Cart.tsx:53-55 | the left fold from `acc` equals `acc` plus the sum of `price * quantity`, so an empty cart totals 0 |
| Cart.LineSumAppend | src/pages/Cart.tsx:54 | the total of two item lists side by side is the sum of their totals |
| Cart.LineSumNonNegative | src/pages/Cart.tsx:54 | non-negative prices and positive quantities give a non-negative total |
| Cart.PlusRaisesTotal | src/pages/Cart.tsx:119 | the plus button on an item whose id is unique raises the total by exactly that item's price |
| Cart.CountIdPositive | src/pages/Cart.tsx:119 | an item's own id is counted at least once |
| Cart.NoIdUntouched | src/pages/Cart.tsx:43-45 | without the id the quantity rewrite changes nothing |
| Cart.RemovedTotal | src/pages/Cart.tsx:49-51 | removal lowers the total by exactly the lines that carried the id |
| Cart.ItemLines | src/pages/Cart.tsx:63-65 | one order line per item, in cart order, each `name (qx) - price` |
| Cart.ItemLine | src/pages/Cart.tsx:63-65 | an order line opens with the item name and closes with the formatted line total `price * quantity` |
| Cart.ItemLineSingle | src/pages/Cart.tsx:64 | with a single-line name and amounts, an order line holds no line break |
| Cart.MessageLines | src/pages/Cart.tsx:61-67 | read line by line, the message is the greeting, a blank line, one line per item in order, a blank line and the total line |
| Cart.MessageIsJoin | src/pages/Cart.tsx:63-67 | the message is its parts joined by line breaks, the total being the sum of the lines |
| Cart.FramedJoin | src/pages/Cart.tsx:67 | a head, a blank line, the joined lines, a blank line and a tail form one join |
| Cart.FramedSingleLine | src/pages/Cart.tsx:67 | framing single-line parts with blank lines keeps every part single-line |
| Cart.PartsSingleLine | src/pages/Cart.tsx:63-67 | no part of the message holds a line break |
| Cart.CheckoutMessage | src/pages/Cart.tsx:61-67 | the message opens with the greeting and a blank line and closes with the total label and the formatted sum of `price * quantity` |
| Cart.CartPage.constructor | src/pages/Cart.tsx:20-34 | the page starts with its one sample item (id 1, 25000 MRU, quantity 1) and empty contact fields |
| Cart.CartPage.RemoveItem | src/pages/Cart.tsx:49-51 | the new list is the old one without the id; quantities stay positive |
| Cart.CartPage.UpdateQuantity | src/pages/Cart.tsx:36-47 | a quantity of zero or less removes the item; otherwise only that item's quantity changes |
| Cart.CartPage.PressMinus | src/pages/Cart.tsx:111 | minus on quantity 1 removes the item; above 1 it lowers the quantity by one |
| Cart.CartPage.PressPlus | src/pages/Cart.tsx:119 | plus raises the item's quantity by one |
| Cart.CartPage.SetGuestEmail | src/pages/Cart.tsx:153 | only the e-mail field changes |
| Cart.CartPage.SetGuestPhone | src/pages/Cart.tsx:163 | only the phone field changes |
| Cart.CartPage.GetTotalPrice | src/pages/Cart.tsx:53-55 | the total is the sum of `price * quantity` over the items |
| Cart.CartPage.ShowsEmptyView | src/pages/Cart.tsx:72 | the empty-cart view only shows when the total is 0 |
| Cart.CartPage.HandleCheckout | src/pages/Cart.tsx:61-70 | the address opened is the WhatsApp endpoint followed by the encoded order message of the current items |
| Product.WithImages | src/pages/Product.tsx:51-54 | the stored product keeps every fetched field and takes the given image list |
| Product.RowImages | src/pages/Product.tsx:53 | the stored images are the row's list, or the empty list for `null` |
| Product.Truthy | src/pages/Product.tsx:179 | a text (the short description, and likewise the description and the video address) counts as present exactly when it is there and non-empty, and is then used as it is |
| Product.Urls | src/pages/Product.tsx:203-219 | the thumbnail strip lists every image url, in order |
| Product.DetailsOf | src/pages/Product.tsx:163-255 | the details show the star row, the count only when positive and then the count itself, the short description and the description only when non-empty, the edit button only for admins, the image box only with images, the strip of all urls only with more than one, the formatted price, and the video only for a non-empty address, drawn by `renderVideo` with the first image as poster |
| Product.FirstSelectionIsLeast | src/pages/Product.tsx:196 | with sorted images the first selection shows the image of least `sort_order`, and a direct video uses it as poster |
| Product.ProductPage.constructor | src/pages/Product.tsx:26-28 | the page starts loading, with no product and the first image selected |
| Product.ProductPage.FetchProduct | src/pages/Product.tsx:30-68 | an empty id changes nothing; otherwise loading ends; a row is stored with its images sorted and permuted only; a thrown query adds the error notification |
| Product.ProductPage.SelectImage | src/pages/Product.tsx:206 | a thumbnail click selects that index and changes nothing else |
| Product.ProductPage.AddToCart | src/pages/Product.tsx:93-97 | the button adds a confirmation notification and changes nothing else |
| Product.ProductPage.RenderRating | src/pages/Product.tsx:74-91 | nothing without a product; otherwise the product's five-star row |
| Product.ProductPage.View | src/pages/Product.tsx:134-161 | loading shows the skeleton, a missing product the not-found view, otherwise the product's details |
| ProductCard.DetailLink | src/components/ProductCard.tsx:55 | the link is `/product/` followed by the id |
| ProductCard.DetailLinkInjective | src/components/ProductCard.tsx:55 | different products link to different pages |
| ProductCard.ThumbnailFor | src/components/ProductCard.tsx:58-70 | a photo exactly for a present, non-empty url, otherwise the placeholder |
| ProductCard.RatingCountLabel | src/components/ProductCard.tsx:80-84 | the count is shown exactly when positive |
| ProductCard.MainImage | src/components/ProductCard.tsx:19-20 | the array ends sorted and permuted only; the picture is absent exactly for no images, otherwise the url of an image with least `sort_order` |
| ProductCard.RenderCard | src/components/ProductCard.tsx:43-97 | the card shows the edit button for admins, the detail link, the sorted first image or placeholder, the star row, the positive count and the price |
| Auth.ErrorDescription | src/pages/Auth.tsx:38-45 | the credentials text maps first, then the duplicate-account text; any other message is shown unchanged |
| Auth.PlainTextShownAsIs | src/pages/Auth.tsx:43-44 | a message holding neither `I` nor `U` is shown as it is |
| Auth.PassesThroughIff | src/pages/Auth.tsx:38-45 | a message is shown unchanged exactly when it matches neither known text |
| Auth.AuthPage.constructor | src/pages/Auth.tsx:12-16 | the form starts in sign-in mode, empty, not loading, password hidden |
| Auth.AuthPage.SetEmail | src/pages/Auth.tsx:83 | only the e-mail changes |
| Auth.AuthPage.SetPassword | src/pages/Auth.tsx:95 | only the password changes |
| Auth.AuthPage.ToggleShowPassword | src/pages/Auth.tsx:104 | the password visibility flips and nothing else changes |
| Auth.AuthPage.ToggleMode | src/pages/Auth.tsx:117 | the mode flips between sign-in and sign-up and nothing else changes |
| Auth.AuthPage.OnUserChange | src/pages/Auth.tsx:19-23 | a signed-in user is sent to `/`; nothing else changes |
| Auth.AuthPage.BeginSubmit | src/pages/Auth.tsx:25-36 | an empty field gives one validation notification and no call; otherwise loading starts and the call the mode asks for is made; the fields, the mode and the navigation stay |
| Auth.AuthPage.FinishSubmit | src/pages/Auth.tsx:37-58 | loading ends whatever the outcome; a rejection or error gives an error notification; a sign-up success notifies and returns to sign-in; a sign-in success goes to `/`; the fields and the calls stay |
| Auth.AuthPage.HandleSubmit | src/pages/Auth.tsx:25-59 | the whole submission: an empty field gives the validation notification and nothing else; otherwise one call in the starting mode, loading ends, and each answer gives its notification, mode and navigation |
| BanatIndex.IndexPage.constructor | src/pages/BanatIndex.tsx:29-36 | the page starts with no user, not admin, loading, and the dialogs closed |
| BanatIndex.IndexPage.OnAuthStateChange | src/pages/BanatIndex.tsx:74-82 | the session user is stored; with a user an admin check is scheduled for that user; without one the admin flag is cleared |
| BanatIndex.IndexPage.CheckUser | src/pages/BanatIndex.tsx:87-95 | the current user is stored and an admin check is scheduled for it; the admin flag is not touched |
| BanatIndex.IndexPage.CheckIfAdmin | src/pages/BanatIndex.tsx:97-108 | the flag becomes true exactly for the role `admin`; a thrown lookup changes nothing |
| BanatIndex.IndexPage.FetchProducts | src/pages/BanatIndex.tsx:110-130 | rows replace the list (`null` empties it); a failure keeps it and notifies; loading ends either way |
| BanatIndex.IndexPage.SignOut | src/pages/BanatIndex.tsx:154-171 | success clears the user and the flag and notifies; a failure keeps both and shows its message |
| BanatIndex.IndexPage.HandleAddCategory | src/pages/BanatIndex.tsx:173-177 | the category dialog opens on no category |
| BanatIndex.IndexPage.HandleEditCategory | src/pages/BanatIndex.tsx:179-183 | the category dialog opens on the given category |
| BanatIndex.IndexPage.HandleAddProduct | src/pages/BanatIndex.tsx:185-188 | the product dialog opens |
| BanatIndex.IndexPage.CloseCategoryDialog | src/pages/BanatIndex.tsx:394 | the category dialog closes, keeping its category; nothing else changes |
| BanatIndex.IndexPage.CloseProductDialog | src/pages/BanatIndex.tsx:401 | the product dialog closes; nothing else changes |
| BanatIndex.IndexPage.SetSearchQuery | src/pages/BanatIndex.tsx:265 | only the search text changes |
| BanatIndex.SignOutHidesAdmin | src/pages/BanatIndex.tsx:226-234 | after a successful sign-out neither the admin link, the add buttons nor the sign-out button shows |
| BanatIndex.SignInAsAdmin | src/pages/BanatIndex.tsx:226-234 | a sign-in whose role lookup answers `admin` shows the admin link and the add buttons |
| BanatIndex.StaleAdminCheck | src/pages/BanatIndex.tsx:290-309 | a deferred admin check answering after a sign-out leaves a signed-out visitor with the add buttons but without the admin link |

The view conditions of the home page (`IndexPage.ShowsLoadingView`, `ShowsAdminLink`,
`ShowsSignOut`, `ShowsAddButtons`, at `src/pages/BanatIndex.tsx:206-309`) are predicates. The
three scenario methods above state their consequences.

## Left out

- Network, database and identity-provider calls are not modelled. Their answers are inputs.
  These are `supabase` queries, `signIn`/`signUp`/`signOut`, and `getUser`.
- React's scheduling is not modelled. `setTimeout(…, 0)` becomes a returned "admin check
  scheduled for this user", which the caller runs later with `CheckIfAdmin`. `useEffect`
  ordering and re-renders are not modelled.
- The realtime channels are not modelled. On a change, the products channel calls
  `fetchProducts` again and the categories channel calls the categories hook's
  `refetchCategories`.
- `signInWithGoogle` and the dialog success handlers are not modelled. They make a provider
  call or a refetch, then show a toast.
- Number formatting is a parameter. `toLocaleString` depends on the locale, so the model never
  fixes it.
- `encodeURIComponent` is a parameter, so the model says nothing about the encoding itself.
- `window.open` and `window.location.href` are not modelled. They become a returned address or
  a `location` field.
- `console.log` and `console.error` are not modelled.
- The markup and styling of every page are not modelled: headers, footers, and class names.
  The settings and category hooks are also left out, apart from their `loading` flags.
- The products listing page and the presentation-only components are not part of this model.
- Cart.CartPage.GetTotalPrice: prices and quantities are exact integers. JavaScript numbers are
  doubles, so a total above 2^53 would lose precision there.
- Rating.Stars: ratings are exact reals, not doubles.
- Images.SortBySortOrder: does not state stability. JavaScript's `sort` keeps images with equal
  `sort_order` in their fetched order; the model promises only ascending order and the same
  images.
- Nullable columns are not modelled: `sort_order`, `rating` and `rating_count` are always
  numbers here, although the columns can be `null`.
- Auth.ErrorDescription: idempotence is not proved. Mapping a mapped message again gives the
  same text. `PassesThroughIff` states the pass-through case instead.
