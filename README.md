# Ana Paula Prata storefront — a verified model of its client-side rules

This project models the deterministic rules of a Next.js storefront, with every
network reply taken as a parameter. The storefront's pages are a cart with
shipping quotes and checkout, a home-page category carousel, customer and admin
order lists, sign-up, password reset, an admin product form and a user profile.
They all talk to a REST back end through one request helper.

Each page component becomes a Dafny module. Its state hooks become the fields
of a class, and its handlers become methods on that class. Each class has a
`State()` snapshot, so a method can state its whole new state as an update of
the old one. The rules a handler applies are written as functions, and lemmas
prove the properties the page relies on:

- the cart total and the package dimensions;
- the cheapest-quote choice;
- the carousel's invisible wrap-around;
- the one-order shipped toggle;
- the ordered form checks;
- the request shaping of the API helper.

An async handler whose busy flag matters is split at its `await`:

- `Begin…` covers the steps up to the call and returns the request it makes.
- `Finish…` takes the reply and applies the rest.

Elsewhere, the replies a handler awaits are parameters, and the calls it makes
are out-parameters; `None` means no call was made.

Modules:

- `Common`: JS truthiness of optional strings, `String.prototype.trim`, ASCII
  lower-casing, UTF-16 length and substring search.
- `Uri`: UTF-8, the `URLSearchParams` form serializer and `decodeURIComponent`.
- `Api`: services/api.js.
- `Carrinho`: pages/carrinho/index.js.
- `Home`: pages/index.js.
- `Pedidos`: the order record and status badge, shared by both order pages.
- `AdminPedidos`: pages/admin/pedidos/index.js.
- `MeusPedidos`: pages/meus-pedidos/index.js.
- `Register`: pages/register.js.
- `ResetPassword`: pages/reset-password.js.
- `AdminProdutos`: pages/admin/produtos.js.
- `Usuario`: pages/usuario.js.

Numbers are `real`. A price, quantity or dimension that is absent or does not
parse is `None` and counts as 0 (`Common.Num`).

The package floors at pages/carrinho/index.js:225-228 replace only a value that
aggregated to 0 or less: a width of 5 stays 5 (`Carrinho.WithFloor`).

## Model

| member | source | states |
|---|---|---|
| Common.TrimEmptyIffBlank | pages/index.js:52-54 | `trim()` of a string is empty exactly when every character is JS whitespace |
| Common.TrimStart | pages/index.js:52-54 | the result is a suffix of the input, everything dropped is whitespace, and it does not start with whitespace |
| Common.TrimEnd | pages/index.js:52-54 | the result is a prefix of the input, everything dropped is whitespace, and it does not end with whitespace |
| Common.BlankTrimsToEmpty | pages/index.js:52-54 | a string made only of whitespace trims to the empty string |
| Common.TrimmedToEmptyIsBlank | pages/index.js:52-54 | a string that trims to the empty string is made only of whitespace |
| Common.Utf16Length | pages/register.js:24 | `.length` counts UTF-16 code units: between the number of characters and twice it, and equal to it for text in the Basic Multilingual Plane |
| Common.ToLower | pages/admin/pedidos/index.js:64-69 | the lower-cased text has the same length and lower-cases each character in place |
| Common.ToLowerIdempotent | pages/admin/pedidos/index.js:64-69 | lower-casing twice is the same as lower-casing once |
| Uri.Utf8RoundTrip | pages/reset-password.js:25 | decoding the UTF-8 bytes of any character gives back that character |
| Uri.Utf8Encode | pages/reset-password.js:25 | one to four bytes, the lead byte announcing the length and the rest continuation bytes; one byte exactly for ASCII |
| Uri.HexRoundTrip | pages/reset-password.js:25 | reading back the hex digit written for a value below 16 gives that value |
| Uri.PercentBytesParse | pages/reset-password.js:25 | the `%XX` escapes of a byte sequence read back as exactly those bytes, leaving what follows untouched |
| Uri.DecodeEscapedChar | pages/reset-password.js:25 | decoding the escapes of a character followed by any text gives that character followed by the decoding of the text |
| Uri.FormEncodeHasNoSeparators | services/api.js:83-92 | a value serialized by `URLSearchParams` contains no `&`, `=`, `#`, `?` or space, so the query splits back unambiguously |
| Uri.FormEncodeCharIsSeparatorFree | services/api.js:83-92 | the serialization of any single character contains no separator |
| Uri.DecodeFormEncode | pages/reset-password.js:25 | `decodeURIComponent` inverts the form serializer on every string without spaces |
| Uri.SpaceDoesNotRoundTrip | pages/reset-password.js:25 | a space is serialized as `+`, which `decodeURIComponent` leaves as `+` |
| Api.BaseUrl | services/api.js:2 | the base URL is the configured one when it is set and non-empty, and is never empty |
| Api.BuildHeaders | services/api.js:5-14 | JSON content type exactly when the body is not FormData; `Bearer <token>` authorization exactly when a token is given; no other header |
| Api.SentBodyOf | services/api.js:19-23 | no body is sent as none, FormData is passed through with its entries unchanged, anything else is sent as JSON text of the same fields |
| Api.PrepareFetch | services/api.js:16-24 | the fetch goes to base URL + endpoint with the request's verb and the chosen body; `Content-Type: application/json` exactly when the body is not FormData, `Authorization: Bearer <token>` exactly when a token is given, and no other header |
| Api.ErrorMessage | services/api.js:31 | the error text is `erro`, else `msg`, else the default, and is never empty |
| Api.Complete | services/api.js:26-35 | an ok reply yields its data (`{}` when the body does not parse); any other reply fails with its status and a non-empty message |
| Api.HttpErrorKeepsServerMessage | services/api.js:28-33 | a page that shows `err.message` shows the server's `erro`/`msg` text, whatever its fallback |
| Api.ProdutosQuery | services/api.js:82-90 | `q` is added exactly when truthy and first; `somenteDisponiveis=1` exactly when set; the query has exactly one pair per filter set and nothing else |
| Api.QueryStringEmptyIff | services/api.js:92 | the serialized query is empty exactly when no pair was appended |
| Api.ProdutosEndpointHasQueryIff | services/api.js:82-93 | the list endpoint differs from the bare path exactly when a search term or the availability filter is set |
| Api.ProdutoEndpointIdentifies | services/api.js:104-111 | the id reads back from the single-product endpoint after `?_id=`, so two ids give the same endpoint exactly when they are equal |
| Api.ProductWritesShareThePath | services/api.js:92-111 | create and list use the bare path, update and delete the same `?_id=` path, and delete sends no body |
| Carrinho.TotalProdutosAppend | pages/carrinho/index.js:90-94 | the products total of two carts put together is the sum of their totals |
| Carrinho.TotalProdutosCons | pages/carrinho/index.js:90-94 | the total is a line's price × quantity plus the total of the rest |
| Carrinho.TotalProdutosNonNegative | pages/carrinho/index.js:90-94 | with non-negative prices and quantities the total is non-negative |
| Carrinho.TotalComFreteAddsSelection | pages/carrinho/index.js:96-97 | with no shipping value the total is the products total; otherwise it exceeds it by exactly the shipping value |
| Carrinho.CheckoutExample | pages/carrinho/index.js:90-97 | two lines of 2 × 50 and 1 × 30 with shipping 15 total 145 |
| Carrinho.MaxDimIsMaximum | pages/carrinho/index.js:211-222 | the width/length aggregate is at least every line's value, is non-negative, and when positive is one line's value |
| Carrinho.ZeroDimensionsAggregateToZero | pages/carrinho/index.js:211-222 | lines with no declared dimension aggregate to 0, both as maximum and as weighted sum |
| Carrinho.CalcularDimensoesPacote | pages/carrinho/index.js:205-236 | the loop computes the maxima and the quantity-weighted sums, each floored; every dimension is positive and every line fits the width and length |
| Carrinho.ZeroDimensionsGiveDefaultPackage | pages/carrinho/index.js:224-228 | a cart without dimensions gives the 10 × 15 × 2 package weighing 0.1 |
| Carrinho.OpcoesValidas | pages/carrinho/index.js:270-272 | every quote kept is valid, and no more quotes come out than went in |
| Carrinho.OpcoesValidasAppend | pages/carrinho/index.js:270-272 | the filter keeps the offered order: filtering two lists put together is filtering each and putting the results together |
| Carrinho.OpcoesValidasCounts | pages/carrinho/index.js:270-272 | every copy of a valid quote is kept and no copy of an invalid one |
| Carrinho.OpcoesValidasKeepsTheValid | pages/carrinho/index.js:270-272 | a quote is kept exactly when it was offered, has no error marker and has a price |
| Carrinho.ValidOptions | pages/carrinho/index.js:270-272 | `opcoes || []` filtered: every option left is valid, and a reply with no list gives none |
| Carrinho.CheapestIndex | pages/carrinho/index.js:286-292 | the default quote has the lowest price, and it is the first among equally cheap ones |
| Carrinho.FinishDisabledIffBlocked | pages/carrinho/index.js:318-319 | the finish button is disabled exactly while loading, or when the cart is empty or shipping is not positive |
| Carrinho.CartPage.constructor | pages/carrinho/index.js:18-36 | every hook starts at its initial value |
| Carrinho.CartPage.CarregarCarrinho | pages/carrinho/index.js:41-59 | messages cleared, then the lines (`produtos || []`) or the load error |
| Carrinho.CartPage.CarregarUsuarioCep | pages/carrinho/index.js:61-71 | the user lookup is made without a token, so it carries no `Authorization` header; the postal code is taken only from a reply that has one; nothing else changes |
| Carrinho.CartPage.AumentarQuantidade | pages/carrinho/index.js:99-128 | adds one unit, then reloads; a 400 "Quantidade indisponível" opens the stock modal, any other failure sets the error |
| Carrinho.CartPage.FecharEstoqueModal | pages/carrinho/index.js:527-536 | closes the stock modal and changes nothing else |
| Carrinho.CartPage.DiminuirQuantidade | pages/carrinho/index.js:130-141 | removes one unit and reloads, or sets the error |
| Carrinho.CartPage.BeginCalcularFrete | pages/carrinho/index.js:239-268 | no quote call for an empty cart (checked first) or a trimmed postal code under 8 characters; otherwise quotes from the store's postal code with the computed package |
| Carrinho.CartPage.FinishCalcularFrete | pages/carrinho/index.js:268-305 | keeps the valid quotes and pre-selects the cheapest, setting the shipping value to its price; with none left, clears the options, selection and value and sets the error |
| Carrinho.CartPage.SelecionarFrete | pages/carrinho/index.js:463-467 | a manual choice sets the selected id and the shipping value to that quote's price |
| Carrinho.CartPage.FinalizarCompra | pages/carrinho/index.js:144-202 | as written: the new state is `Checkout` of the old one; no order call when the cart is empty or shipping is not positive; a created order clears shipping, reloads the cart and requests payment, and the success message is left empty |
| Carrinho.CartPage.FinalizarCompraCorrigida | pages/carrinho/index.js:144-202 | the new state is `CheckoutCorrigido`: the same checkout, with the success message naming the new order surviving the reload |
| Carrinho.CartPage.RecusarCompra | pages/carrinho/index.js:146-161 | messages cleared, then the empty-cart error when the cart is empty and otherwise the missing-shipping error; cart and shipping untouched |
| Carrinho.CartPage.MarcarPedido | pages/carrinho/index.js:167-174 | a created order sets the message naming it and clears the shipping value, the options and the selection |
| Carrinho.CartPage.RegistrarPedido | pages/carrinho/index.js:167-175 | as written: the order is marked and then the cart reload runs, which clears the message again |
| Carrinho.CartPage.RegistrarPedidoCorrigido | pages/carrinho/index.js:167-175 | the order is marked, the cart reloads, and the message naming the order is set after the reload |
| Carrinho.CartPage.SolicitarPagamento | pages/carrinho/index.js:177-193 | asks for a payment of the order's total and id; the checkout URL is opened exactly when the reply carries a truthy `initPoint`; a failure sets the payment error and nothing else changes |
| Carrinho.RefusedCheckoutKeepsTheCart | pages/carrinho/index.js:150-161 | a blocked checkout leaves the lines and the shipping choice as they were, shows an error and no success message |
| Carrinho.PlacedOrderClearsShipping | pages/carrinho/index.js:171-193 | after a created order the shipping value, options and selection are cleared, the lines are the reloaded ones (kept if the reload fails), and a failed payment request shows the payment error |
| Carrinho.SuccessMessageNeverShown | pages/carrinho/index.js:144-202 | as written, no checkout run, whatever the replies, ends with a success message, so the success line is never drawn |
| Carrinho.CorrectedHandlerAloneStaysHidden | pages/carrinho/index.js:350-498 | with the handler fixed but the render as written, an order followed by an empty reloaded cart keeps the message but does not draw it, since the line sits inside the non-empty-cart block |
| Carrinho.CorrectedCheckoutShowsOrder | pages/carrinho/index.js:167-175 | with the corrected handler and render, a placed order's message naming it is drawn whatever the reload and payment return; the corrected checkout differs from the written one only by that message |
| Home.Pairs | pages/index.js:20-24 | one pair per category |
| Home.PairsCycle | pages/index.js:20-24 | pair i shows category i then category (i+1) mod n, so each category opens one pair and closes the one before |
| Home.StorePairs | pages/index.js:12-24 | the store's four categories give four pairs, the last wrapping round to the first |
| Home.Extended | pages/index.js:27-31 | the slides are the last pair, all the pairs, then the first pair: n+2 slides |
| Home.SnapIsInvisible | pages/index.js:85-96 | the snap lands on a real slide showing the same pair as the copy it left |
| Home.SnapCorrigidoLandsOnTheAimedPair | pages/index.js:85-96 | the corrected snap lands on a real slide, on the pair the index points at round the cycle, and agrees with the written snap on every index within the slides |
| Home.StepsFollowTheCycle | pages/index.js:75-96 | one step right or left, followed by the snap, shows the next or previous pair in the cycle |
| Home.Carousel.constructor | pages/index.js:33-35 | the carousel starts on slide 1 (the first real pair) with transitions on |
| Home.Carousel.MoveRight | pages/index.js:75-78 | the index goes up by one with transitions on |
| Home.Carousel.MoveLeft | pages/index.js:80-83 | the index goes down by one with transitions on |
| Home.Carousel.HandleTransitionEnd | pages/index.js:85-96 | as written: the last slide snaps to 1 and slide 0 to n, with transitions off; any other index is kept; on an index within the slides it lands on a real slide showing the same pair |
| Home.Carousel.HandleTransitionEndCorrigido | pages/index.js:85-96 | any index, however far the clicks took it, is brought to the real slide showing the pair it points at, with transitions off for the jump |
| Home.ProfileAlertIff | pages/index.js:41-68 | the alert shows exactly when a user was found and their telefone, endereco or cep is missing or blank; never without a user or when the lookup fails |
| Home.MissingIffBlank | pages/index.js:52-54 | `!x || !x.trim()` holds exactly when the field is absent or all whitespace |
| Home.CategoryRoute | pages/index.js:103-106 | no navigation without a slug; otherwise `/categoria/<slug>` |
| Pedidos.StatusLabelClass | pages/admin/pedidos/index.js:64-69 | approved exactly for "aprovado", cancelled exactly for "cancelado" (in any case), pending for everything else and for a missing status |
| Pedidos.StatusLabelClassIgnoresCase | pages/meus-pedidos/index.js:62-67 | the badge of a status and of its lower-cased form agree |
| AdminPedidos.LoadErrorMessage | pages/admin/pedidos/index.js:34-40 | 401 gives the login message, 403 access denied, anything else the error's own message |
| AdminPedidos.CanToggleIffApproved | pages/admin/pedidos/index.js:81 | the shipped flag can be toggled exactly on orders whose badge is approved |
| AdminPedidos.SetEnvio | pages/admin/pedidos/index.js:95-105 | only the orders with the id change, to the new flag with a timestamp when shipped and none when not; the rest are kept; the length is kept |
| AdminPedidos.SetEnvioKeepsTheRest | pages/admin/pedidos/index.js:95-105 | the toggle never changes an order's id, status, totals or items |
| AdminPedidos.SetEnvioLastWins | pages/admin/pedidos/index.js:95-105 | two toggles of the same order leave it as the second alone would |
| AdminPedidos.AdminOrdersPage.constructor | pages/admin/pedidos/index.js:12-18 | empty list, nothing loading, no messages |
| AdminPedidos.AdminOrdersPage.CarregarPedidos | pages/admin/pedidos/index.js:20-44 | the list (`data || []`), the "no orders" note exactly for an empty one, or the classified error with the list kept |
| AdminPedidos.AdminOrdersPage.BeginToggleEnvio | pages/admin/pedidos/index.js:80-92 | a non-approved order changes nothing and makes no call; otherwise asks for the negated flag and marks the order busy |
| AdminPedidos.AdminOrdersPage.FinishToggleEnvio | pages/admin/pedidos/index.js:95-111 | on success the list is updated in place for that order only; on failure it is kept and the error set; the busy marker is cleared either way |
| MeusPedidos.LoadErrorMessage | pages/meus-pedidos/index.js:34-38 | 401 gives the login message, anything else the error's own message |
| MeusPedidos.AtMostOneAction | pages/meus-pedidos/index.js:253-282 | at most one of the pay button, the confirmation and the cancellation note is shown |
| MeusPedidos.ActionsAgreeWithBadge | pages/meus-pedidos/index.js:253-282 | the confirmation shows exactly under an approved badge, the cancellation exactly under a cancelled one, and the pay button only under a pending one |
| MeusPedidos.MyOrdersPage.constructor | pages/meus-pedidos/index.js:12-16 | empty list, nothing loading, no messages |
| MeusPedidos.MyOrdersPage.CarregarPedidos | pages/meus-pedidos/index.js:21-42 | the list, the "no orders yet" note exactly for an empty or absent one, or the classified error |
| MeusPedidos.MyOrdersPage.BeginPagarPedido | pages/meus-pedidos/index.js:69-79 | the messages are cleared and the order is marked busy while its payment is requested |
| MeusPedidos.MyOrdersPage.FinishPagarPedido | pages/meus-pedidos/index.js:80-92 | a reply with an `initPoint` opens it and sets the info message; without one, or on failure, the error is set; the busy marker is cleared in every case |
| Register.ValidIffFilledAndNoHint | pages/register.js:24-34 | the form is valid exactly when all four fields are filled and neither the short-password nor the mismatch hint shows |
| Register.LengthRuleByCharacters | pages/register.js:24 | four characters always pass the length rule, and a password that passes has at least two |
| Register.SessionUser | pages/register.js:79 | the stored user is `usuario`, or else `user` |
| Register.BuildRegisterForm | pages/register.js:61-70 | the appends build exactly `RegisterFields`: nome, email and senha in that order, then the avatar under `file` only when chosen; the confirmation is never sent |
| Register.RegisterPage.constructor | pages/register.js:11-22 | every field empty, no avatar, nothing loading |
| Register.RegisterPage.Submit | pages/register.js:49-97 | an invalid form sets the error and makes no call; otherwise registers with exactly the `RegisterFields` of the typed values, logs in with the same credentials, stores the token and user only when present, and goes home |
| ResetPassword.AcceptedIff | pages/reset-password.js:33-51 | the reset goes ahead exactly when both passwords are filled, at least 4 long and equal, and the link gave an e-mail and a token |
| ResetPassword.ErrorsInOrder | pages/reset-password.js:33-51 | each error is reported only when every earlier check passed, and a bad link is always reported when nothing earlier failed |
| ResetPassword.SameRulesAsSignUp | pages/reset-password.js:33-46 | with a good link, a password pair passes here exactly when it passes sign-up |
| ResetPassword.ResetPasswordPage.constructor | pages/reset-password.js:9-17 | every field empty, no messages, not loading |
| ResetPassword.ResetPasswordPage.ReadQuery | pages/reset-password.js:20-25 | once the router is ready, a string token is kept as is and a string e-mail is URI-decoded; anything else leaves the field alone |
| ResetPassword.ResetPasswordPage.Submit | pages/reset-password.js:28-73 | the first failing check sets its error and nothing is called; otherwise the reset is requested, and success shows the server's message and goes to the login |
| AdminProdutos.ReplaceFirstComma | pages/admin/produtos.js:160-168 | exactly the first comma changes, and it becomes a dot; the length is kept |
| AdminProdutos.SingleCommaIsNormalised | pages/admin/produtos.js:160 | a decimal written with at most one comma is sent with none |
| AdminProdutos.ReplaceFirstCommaExamples | pages/admin/produtos.js:160 | "12,50" becomes "12.50"; "1,2,3" becomes "1.2,3" |
| AdminProdutos.Values | pages/admin/produtos.js:136-147 | the twelve required fields |
| AdminProdutos.RequiredFilledIff | pages/admin/produtos.js:135-151 | the form passes exactly when none of the twelve fields is empty, and an empty form never does |
| AdminProdutos.BuildProductForm | pages/admin/produtos.js:153-172 | the appends build exactly `ProductForm`: the twelve fields in order, the five decimal ones comma-normalised, then the image under `file` only when chosen |
| AdminProdutos.ProductFieldsInOrder | pages/admin/produtos.js:156-168 | twelve entries, the k-th named as the k-th field, the five decimal ones comma-normalised and the rest sent as typed |
| AdminProdutos.CamposOf | pages/admin/produtos.js:106-121 | each of the twelve form fields is the product's stored value for it, or empty when none is stored |
| AdminProdutos.ResavableIffComplete | pages/admin/produtos.js:106-151 | a product opened for editing passes the required-fields check unchanged exactly when all twelve of its fields are stored and non-empty |
| AdminProdutos.AfterSaveClosesTheForm | pages/admin/produtos.js:174-184 | after a save the form is closed and empty with the message for its kind; the list is the reloaded one, or is kept with the load error shown; access, busy flag and delete dialog are untouched |
| AdminProdutos.AfterSaveKeepsLoading | pages/admin/produtos.js:174-190 | the save and its reload leave the busy flag as they found it |
| AdminProdutos.AfterDeleteClosesTheDialog | pages/admin/produtos.js:239-241 | after a delete the dialog is closed and the product forgotten, the message says so, the list is the reloaded one or is kept with the load error shown; the form, access and busy flag are untouched |
| AdminProdutos.AfterDeleteKeepsLoading | pages/admin/produtos.js:236-246 | the delete and its reload leave the busy flag as they found it |
| AdminProdutos.AdminProductsPage.HeaderButtonLabel | pages/admin/produtos.js:283-287 | "Novo Produto" when closed, "Cancelar" in new mode, "Cancelar edição" in edit mode |
| AdminProdutos.AdminProductsPage.constructor | pages/admin/produtos.js:18-47 | the form is closed, empty and not editing |
| AdminProdutos.AdminProductsPage.CarregarProdutos | pages/admin/produtos.js:63-74 | lists all products with no filter; the new state is `AfterList`: the list (`data || []`) or the error, and nothing else but the loading flag |
| AdminProdutos.AdminProductsPage.CheckAccess | pages/admin/produtos.js:50-61 | without a token, a stored user or the admin role, redirects home and changes nothing; otherwise the new state is `AfterList` of the authorized state: the list, or the load error with the list kept |
| AdminProdutos.AdminProductsPage.LimparFormulario | pages/admin/produtos.js:88-104 | every field, the image and the edit id cleared; nothing else changes |
| AdminProdutos.AdminProductsPage.PreencherFormularioParaEdicao | pages/admin/produtos.js:106-121 | the fields come from the product, the file is cleared and the existing image is the preview |
| AdminProdutos.AdminProductsPage.EditarProduto | pages/admin/produtos.js:207-213 | opens the form in edit mode for that product, prefilled, with messages cleared |
| AdminProdutos.AdminProductsPage.ClickNovoProduto | pages/admin/produtos.js:193-205 | in new mode the button clears and closes the form; closed or editing, it clears the messages and opens an empty form in new mode; the whole new state is stated, so the list, access and delete dialog are unchanged |
| AdminProdutos.AdminProductsPage.CancelarFormulario | pages/admin/produtos.js:470-476 | clears and closes the form |
| AdminProdutos.AdminProductsPage.SaveRequest | pages/admin/produtos.js:153-180 | the save is a PUT to the edited id's endpoint when editing and a POST to the list path otherwise, carrying the token and exactly the `ProductForm` of the form's fields and chosen image |
| AdminProdutos.AdminProductsPage.Submit | pages/admin/produtos.js:123-191 | no token: to the login; a missing field: the error and no call; otherwise a save with the token and the `ProductForm` of the typed fields, updating the edited id exactly when the form was in edit mode, creating otherwise; after an accepted save the new state is `AfterSave` (form closed and emptied, list reloaded) with loading off; a refused save sets only the error |
| AdminProdutos.AdminProductsPage.Salvar | pages/admin/produtos.js:153-190 | the save request for the current form, then `AplicarResposta` on its reply |
| AdminProdutos.AdminProductsPage.AplicarResposta | pages/admin/produtos.js:174-190 | an accepted save leaves `AfterSave` of the old state with loading off and reloads the list; a refused one sets only the error; a list call is made exactly on acceptance |
| AdminProdutos.AdminProductsPage.SalvamentoAceito | pages/admin/produtos.js:174-190 | with loading held around it, an accepted save leaves `AfterSave` of the old state with loading off and the form closed |
| AdminProdutos.AdminProductsPage.ValidarSalvamento | pages/admin/produtos.js:125-151 | the save goes ahead exactly with a token and every field filled; no token routes to the login; a missing field sets the required-fields error; messages are cleared first |
| AdminProdutos.AdminProductsPage.ConcluirSalvamento | pages/admin/produtos.js:174-184 | the new state is `AfterSave`: the message says updated when an id was being edited and created otherwise, the form is emptied and closed, and the list is reloaded |
| AdminProdutos.AdminProductsPage.FecharAposSalvar | pages/admin/produtos.js:176-183 | the new state is `SavedAndClosed`: the message for the kind of save, the fields, image and edit id cleared and the form closed; nothing else changes |
| AdminProdutos.AdminProductsPage.AbrirModalExcluir | pages/admin/produtos.js:215-220 | remembers the product and opens the delete dialog |
| AdminProdutos.AdminProductsPage.FecharModalExcluir | pages/admin/produtos.js:222-225 | closes the delete dialog and forgets the product |
| AdminProdutos.AdminProductsPage.ConfirmarExclusao | pages/admin/produtos.js:227-248 | nothing is selected: no-op; no token: to the login; otherwise deletes that product; on success the new state is `AfterDelete` with loading off (dialog closed, message set, list reloaded), on failure only the error is set |
| AdminProdutos.AdminProductsPage.ExclusaoAceita | pages/admin/produtos.js:236-246 | with loading held around it, an accepted delete leaves `AfterDelete` of the old state with loading off, after an unfiltered list call |
| Usuario.Normalize | pages/usuario.js:49-58 | the id is `_id`, else `id`; an absent avatar is null; telefone, endereco and cep default to empty; the rest is copied |
| Usuario.NormalizeIdempotent | pages/usuario.js:120-129 | normalising an already normalised record changes nothing |
| Usuario.BuildUpdateForm | pages/usuario.js:108-113 | the conditional appends build exactly `UpdateFields`: nome, telefone, endereco and cep in that order, each when non-empty, then the file when chosen |
| Usuario.InUpdateFields | pages/usuario.js:108-113 | an entry is in the update form exactly when it is one of the filled fields under its own name or the chosen file |
| Usuario.UpdateFieldsSendsTheFilled | pages/usuario.js:108-113 | each of nome, telefone, endereco and cep is sent exactly when non-empty, and the file exactly when chosen |
| Usuario.UpdateFieldsNeverSendEmail | pages/usuario.js:108-113 | every entry sent is one of nome, telefone, endereco, cep or file; the e-mail is never sent |
| Usuario.UpdateFieldsCount | pages/usuario.js:108-113 | the form has one entry per filled field plus one for a chosen file |
| Usuario.UserPage.constructor | pages/usuario.js:13-28 | no user, empty fields, not editing |
| Usuario.UserPage.ShowUser | pages/usuario.js:60-66 | the form fields show the user's record |
| Usuario.UserPage.Load | pages/usuario.js:30-81 | without a token or stored user, to the login with no fetch; otherwise shows the normalised record; a 401 signs out and redirects, any other error only sets the message |
| Usuario.UserPage.AvatarChange | pages/usuario.js:83-92 | a chosen file becomes the avatar file and its preview; no file clears the file only |
| Usuario.UserPage.EditClick | pages/usuario.js:152-156 | enters edit mode with messages cleared |
| Usuario.UserPage.CancelEdit | pages/usuario.js:158-171 | every field restored from the stored user, the avatar file and messages cleared, edit mode left |
| Usuario.UserPage.UpdateRequest | pages/usuario.js:108-115 | a PUT to the profile endpoint with the token, whose FormData body is `UpdateFields` and never carries the e-mail |
| Usuario.UserPage.Submit | pages/usuario.js:94-150 | no token: to the login; otherwise sends with the token exactly the `UpdateFields` of the typed values, then reloads the record, shows it, clears the avatar file and leaves edit mode; a failed update or reload only sets the error: every other field, the message cleared at the start, and the outside effects are as before |
| Usuario.UserPage.ShowSaved | pages/usuario.js:131-143 | the reloaded record becomes the user and fills the form, the avatar file is cleared, the saved message is set and edit mode is left |

## Left out

- Network, router and browser effects are left out: `fetch`, `router.push`, `window.open`, `URL.createObjectURL`, `setTimeout` and `localStorage`. Replies are parameters; calls, routes and stored values are returned.
- services/storage.js is not part of this model. Stored values are parameters or outputs.
- The cart, order, payment, quote and admin-order API functions the pages import are not in services/api.js and are not part of this model. Their calls are modelled as abstract requests (`Carrinho.CartCall`, `AdminPedidos.EnvioRequest`, `MeusPedidos.PaymentRequest`).
- JS number coercion, floating point, NaN and rounding: `parseFloat`, `Number(x || 0) || 0` and `String(opt.price || '0')` become `real` with absent-or-unparseable as 0. A price of exactly 0 being falsy is not distinguished.
- JSON serialization and parsing: a body is a map of fields. A reply whose `erro`/`msg` is not a string, and a reply that is JSON `null` (which makes the client throw a TypeError), are not modelled.
- Lower-casing is ASCII only. It is exact for the comparisons with "aprovado", "cancelado" and "pendente".
- The product `_id` is inserted into the URL as is, exactly as the source does; its escaping is not modelled further.
- Home.StepsFollowTheCycle: stated for one step from a real slide, followed by the transition end. Two clicks before the transition ends are covered by the carousel finding below.
- Carrinho.OpcoesValidas: its own contract states validity and the length bound only; the order and the multiplicity of the kept quotes are proved by `Carrinho.OpcoesValidasAppend` and `Carrinho.OpcoesValidasCounts`.
- The order pages' item subtotals and "valor dos produtos" (pages/admin/pedidos/index.js:282-285, 303-307) are display arithmetic on totals the back end computes, so they are not modelled.
- Carrinho.CartPage.CarregarUsuarioCep: pages/carrinho/index.js:63 and pages/index.js:44 call `getUsuarioApi()` without a token, so the lookup carries no `Authorization` header (`lookup == GetUsuario(None)`). The back end's answer to such a request is not in the source, so the reply stays a parameter. The cart imports functions that services/api.js does not define, so it was written against another version of that file.
- The enlarged-image modals, the register avatar preview, `handleIrParaUsuario` and the other navigation-only buttons are display or navigation only.
- AdminProdutos.CamposOf: numbers are kept as their text, so JS number-to-string formatting is not modelled.
- Usuario.UserPage.Load: the second token read inside the load is taken to return the same token.
- ResetPassword.ResetPasswordPage.ReadQuery: `decodeURIComponent` throwing on a malformed e-mail is modelled as leaving the e-mail unset; the uncaught exception itself is not modelled.
- `Intl.NumberFormat` currency, `toLocaleString` dates, JSX and CSS are presentation only.
- pages/login.js, pages/forgot-password.js, components/Header.js, pages/admin/usuarios/index.js, pages/sucesso.js, pages/falha.js, pages/pendente.js, pages/minhas-compras.js and components/Footer.js are not part of this model. They are a presence check before a call, or display only.

## Findings

| source | as written | input that shows it | evidently intended | confidence | as-written member | corrected member |
|---|---|---|---|---|---|---|
| pages/carrinho/index.js:167-175 | checkout sets the success message naming the new order, then awaits `carregarCarrinho`, which clears the message first (line 45); and the success line is drawn only inside the block guarded at line 350 by a loaded, error-free, non-empty cart (line 498), which after an order is usually empty | one line of 50.00 with the 20.00 option selected, the order call returning `pedidoId` "42" and the reload succeeding: the message ends up empty (`Carrinho.CheckoutLosesSuccessMessage`; for every input, `Carrinho.SuccessMessageNeverShown`); with the handler alone fixed and an empty reloaded cart, the message is kept but not drawn (`Carrinho.CorrectedHandlerAloneStaysHidden`) | the message naming the order is drawn after the cart reloads (`Carrinho.SuccessShownCorrigido`: the line outside the cart block); proved for every input by `Carrinho.CorrectedCheckoutShowsOrder`, with the example `Carrinho.CorrectedCheckoutKeepsSuccessMessage` | not executed | Carrinho.CartPage.FinalizarCompra | Carrinho.CartPage.FinalizarCompraCorrigida |
| pages/index.js:75-96 | each arrow click adds or subtracts one from the index at once, and `handleTransitionEnd` snaps back only from exactly the last slide or slide 0 | with the four store categories (slides 0..5), start on slide 1, click right three times to reach the last real slide 4, then click right twice before its animation ends: the one transition end sees index 6, past the last slide, and leaves it there, so the strip shows no slide (`Home.DoubleStepLeavesTheSlides`) | any index the clicks leave is brought back to the real slide showing the pair it points at (`Home.SnapCorrigidoLandsOnTheAimedPair`; the same clicks then end on slide 2, `Home.DoubleStepWithCorrectedSnap`) | not executed | Home.Carousel.HandleTransitionEnd | Home.Carousel.HandleTransitionEndCorrigido |
