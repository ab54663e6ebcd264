# A verified model of the WhatsApp store bot

The system is a multi-tenant WhatsApp shop assistant built with Flask and
PostgreSQL. Each shop (a `conta`) owns a WhatsApp number. Its customers write
to that number and the messaging gateway (Twilio) calls the bot's webhook.
The webhook:

- finds the tenant;
- runs a chain of guards (missing data, unknown tenant, test mode, manual
  service);
- routes the message by keywords (alert, greeting, `add <id> <qty>`, cart,
  checkout, catalogue, product search or the AI assistant);
- logs the exchange in `conversas` and sends the reply.

Shopkeepers work in a web panel:

- they read conversations grouped by contact, which marks them read;
- they answer customers by hand, which switches the customer's open sales to
  manual service so that the bot falls silent;
- they browse products with filters;
- they save the bot's training data: store facts and a FAQ.

Helper modules cover:

- a customer registration dialogue (name, then neighbourhood);
- a category listing and a per-phone cart;
- the gateway helpers for plain text, reply buttons and list pickers;
- the "screens" built from those helpers.

The model keeps every table as a sequence of rows inside one `Database.Store`
object. Its `outbox` field records what the gateway accepted. Operations that
change tables are methods with field frames. Each method is proved equal to a
specification function of the old state, and the properties are lemmas about
those functions.

The environment is a value (`Database.Env`). It holds:

- the environment variables the code reads;
- whether the database and the gateway answer during the call.

Modules and files:

| module | file | models |
|---|---|---|
| `Text` | `text.dfy` | the Python string operations the code relies on: `lower`, `upper`, `capitalize`, `strip`, `split`, `replace`, `in`, `startswith`, `int`, `str`, `:.2f`, string `<` |
| `Database` | `database.dfy` | rows, the store, the environment |
| `Sorting` | `sorting.dfy` | `ORDER BY` as a stable sort |
| `DbUtils` | `db_utils.dfy` | `utils/db_utils.py` |
| `SalesFlow` | `sales_flow.dfy` | `utils/fluxo_vendas.py` |
| `Registration` | `registration.dfy` | `utils/fluxo_atendimento.py` |
| `Webhook` | `webhook.dfy` | `app.py` |
| `Panel` | `panel.dfy` | `routes/ver_conversas.py` |
| `ProductsPanel` | `products_panel.dfy` | `routes/ver_produtos.py` |
| `Training` | `training.dfy` | `routes/treinamento_bot.py` |
| `Twilio` | `twilio.dfy` | `utils/twilio_utils.py` |
| `Views` | `views.dfy` | `utils/view_handlers.py` |

Some behaviour of the code is kept as written, because the model follows the
code:

- The products page filters neither by tenant nor by anything but its three
  fields.
- The contact summary joins every message of a contact with every open sale of
  that contact, then groups by contact and sale status. A message is therefore
  counted once per open sale in its group: two open sales with the same
  `status_atendimento` give one row in which every message, and every unread
  one, is counted twice; open sales with different statuses give one row per
  status, each counting every message.
- `utils/twilio_utils.py` builds its interactive payloads with `json.dumps`
  but never imports `json`. The interactive request therefore always fails
  inside its `try`, and the plain-text fallback is what is sent.
- A found product with no description renders its description as `None`.
- The sales flow's listing and cart are not scoped to a tenant.

## Model

| member | source | states |
|---|---|---|
| `Text.Lower` | app.py:118 | `lower()` keeps the length and lower-cases each character on its own |
| `Text.LowerIdempotent` | app.py:118 | lower-casing twice is lower-casing once |
| `Text.Capitalize` | utils/fluxo_vendas.py:22 | `capitalize()` changes only case: the length is kept, lower-casing the result gives `lower()` of the input, the first character is not a lower-case letter and no later character is an upper-case one |
| `Text.StripEnds` | app.py:117 | a stripped text neither starts nor ends with whitespace |
| `Text.StripCutsSpaces` | app.py:117 | stripping is a slice of the input, and everything cut away before and after it is whitespace |
| `Text.StripEmptyIff` | app.py:117 | a message strips to nothing exactly when it is all whitespace |
| `Text.StripIdempotent` | app.py:117 | stripping twice is stripping once |
| `Text.SplitTokens` | app.py:158 | every piece `split()` returns is a non-empty run without whitespace |
| `Text.SplitJoinWords` | app.py:158 | `split()` of tokens joined by spaces gives the tokens back |
| `Text.ContainsIff` | app.py:152 | `sub in s` holds exactly when `sub` occurs at some position of `s` |
| `Text.RemoveAllAbsent` | app.py:116 | `replace(pat, "")` leaves a text without `pat` unchanged |
| `Text.RemoveAllPrefix` | app.py:116 | removing `whatsapp:` from `whatsapp:` + a number without the prefix gives the number |
| `Text.ParseIntToString` | app.py:160 | `int(str(n)) == n` for every integer, negative ones included |
| `Text.LessTransitive` | routes/ver_produtos.py:63 | string order, as `sorted` uses it, is transitive |
| `Text.LessTotal` | routes/ver_produtos.py:63 | any two different strings are ordered one way or the other |
| `Sorting.SortBy` | routes/ver_produtos.py:47 | `ORDER BY` yields a permutation of its rows, in ascending key order |
| `Sorting.SortByMembers` | routes/ver_conversas.py:35 | sorting keeps exactly the rows it is given |
| `DbUtils.FirstContaWithNumber` | utils/db_utils.py:46-56 | the lookup finds nothing exactly when no conta has the number; otherwise it returns the id of the first conta that has it |
| `DbUtils.ContaIdFromNumber` | utils/db_utils.py:22-64 | a database failure yields `None`; a found id belongs to a conta with that WhatsApp number; `None` with the database up means no conta has it |
| `DbUtils.SaveConversation` | utils/db_utils.py:68-89 | appends exactly one unread row with the given tenant, contact, message, reply and time; a connection that cannot be opened (outside the `try`) raises before any write and leaves the log unchanged |
| `DbUtils.Thread` | utils/db_utils.py:105 | a conversation holds exactly the log rows with its tenant and contact |
| `DbUtils.Latest` | utils/db_utils.py:102-111 | nothing exactly for an empty conversation; otherwise a row of the conversation with no later row in it |
| `DbUtils.LastBotMessage` | utils/db_utils.py:92-115 | the reply of a latest row of the conversation; `None` for an empty conversation or a database failure |
| `DbUtils.LatestIgnoresOtherThreads` | utils/db_utils.py:105 | the latest reply depends only on the conversation's own rows, never on another tenant's or contact's |
| `DbUtils.LastBotMessageOtherAppend` | utils/db_utils.py:105 | logging a row in another conversation leaves this conversation's last reply unchanged |
| `DbUtils.LastBotMessageAfterSave` | utils/db_utils.py:77-83 | after saving a row later than every logged one, that row's reply is the conversation's last reply |
| `SalesFlow.ProductsNamed` | utils/fluxo_vendas.py:10-14 | the listing query returns exactly the products whose lower-cased name contains the lower-cased fragment |
| `SalesFlow.ProductsNamedAppend` | utils/fluxo_vendas.py:10-14 | the query keeps table order |
| `SalesFlow.ListingTextEmptyIff` | utils/fluxo_vendas.py:17-24 | the "none found" reply is given exactly when nothing matches |
| `SalesFlow.ListProductsInCategory` | utils/fluxo_vendas.py:7-24 | the reply lists the matched products one line each in query order, and is the "none found" text exactly when nothing matches |
| `SalesFlow.ListingIgnoresTenantAndStatus` | utils/fluxo_vendas.py:10-13 | a product whose name contains the fragment is listed whatever its tenant and active flag |
| `SalesFlow.FindKey` | utils/fluxo_vendas.py:32 | the conflict target of the upsert is the first row carrying the (telefone, id_produto) key, or none |
| `SalesFlow.IncrementQuantity` | utils/fluxo_vendas.py:29-34 | the upsert adds one to the quantity under its key and leaves every other key's quantity alone |
| `SalesFlow.IncrementKeepsKeysUnique` | utils/fluxo_vendas.py:32 | the upsert keeps the (telefone, id_produto) key unique |
| `SalesFlow.FindKeyIsFirst` | utils/fluxo_vendas.py:32 | the first position carrying a key is the one the upsert updates |
| `SalesFlow.AddToCart` | utils/fluxo_vendas.py:26-37 | the cart becomes the upsert of the old cart, and the reply is the fixed confirmation |
| `SalesFlow.IncrementTimesQuantity` | utils/fluxo_vendas.py:29-34 | adding a product `n` times to a cart without it leaves quantity `n` |
| `SalesFlow.IncrementCommutes` | utils/fluxo_vendas.py:29-34 | two additions give the same quantities in either order |
| `SalesFlow.CartTextEmptyIff` | utils/fluxo_vendas.py:51-52 | the empty-cart reply is given exactly when the join yields no row |
| `SalesFlow.ViewCart` | utils/fluxo_vendas.py:39-61 | the reply has one line per joined row with its subtotal and then the total, and is the empty-cart text exactly when the join is empty |
| `SalesFlow.LinesTotalAppend` | utils/fluxo_vendas.py:55-58 | the running total is additive over the rows |
| `SalesFlow.JoinedTotal` | utils/fluxo_vendas.py:43-45 | one cart row joined with the products contributes its quantity times the summed price of the products carrying its id |
| `SalesFlow.CartTotalIsPhoneTotal` | utils/fluxo_vendas.py:42-60 | the total shown is the phone's quantity times current price, summed over its cart rows |
| `SalesFlow.PhoneTotalUpdate` | utils/fluxo_vendas.py:33 | rewriting one cart row changes the phone's total by the change in that row's value |
| `SalesFlow.AddToCartRaisesTotal` | utils/fluxo_vendas.py:26-60 | after adding a product, the phone's total rises by exactly that product's price, and every other phone's total is unchanged |
| `SalesFlow.EmptyCartWhenNoOwnRows` | utils/fluxo_vendas.py:46-52 | a phone with no cart row gets the empty-cart reply, whatever other phones hold |
| `SalesFlow.NoOwnRowsNoLines` | utils/fluxo_vendas.py:46 | other phones' rows never reach a phone's cart |
| `Registration.WithoutPhone` | utils/fluxo_atendimento.py:18 | the DELETE never adds rows |
| `Registration.WithoutPhoneMembers` | utils/fluxo_atendimento.py:18 | the DELETE keeps exactly the rows of the other phones |
| `Registration.WithoutPhoneAppend` | utils/fluxo_atendimento.py:18 | the DELETE keeps table order |
| `Registration.FirstFlow` | utils/fluxo_atendimento.py:28-29 | the fetched row is none exactly when the phone has no flow row; otherwise it is a row of that phone |
| `Registration.SetName` | utils/fluxo_atendimento.py:37 | every row keeps its phone and its `bairro`; each row of the phone gets the name and stage 'bairro'; every other row is unchanged |
| `Registration.DeleteFlowRows` | utils/fluxo_atendimento.py:18 | the flow table becomes the old one without the phone's rows |
| `Registration.StartRegistration` | utils/fluxo_atendimento.py:15-22 | the phone's flow rows are replaced by one at stage `nome`, and the reply is the opening question |
| `Registration.ProcessRegistration` | utils/fluxo_atendimento.py:25-57 | one step of the dialogue: it starts, stores the name, registers the customer, or reports an unknown stage |
| `Registration.NoRowStarts` | utils/fluxo_atendimento.py:31-32 | a phone without a flow row is answered exactly as a new registration |
| `Registration.UnknownStageChangesNothing` | utils/fluxo_atendimento.py:56-57 | a stored stage other than `nome` or `bairro` leaves both tables unchanged and answers the error text |
| `Registration.WithoutPhoneNoRow` | utils/fluxo_atendimento.py:18 | the DELETE changes nothing for a phone without rows |
| `Registration.RowsOfAppend` | utils/fluxo_atendimento.py:28 | a phone's rows in a concatenation are its rows in each part |
| `Registration.RowsOfWithout` | utils/fluxo_atendimento.py:18 | deleting one phone's rows leaves another phone's rows as they were |
| `Registration.RowsOfSetName` | utils/fluxo_atendimento.py:37 | naming one phone leaves another phone's rows as they were |
| `Registration.ProcessTouchesOnlyItsPhone` | utils/fluxo_atendimento.py:25-57 | every step leaves other phones' flow rows unchanged and adds at most one `clientes` row, for this phone and message |
| `Registration.ProcessKeepsOneRowPerPhone` | utils/fluxo_atendimento.py:15-57 | every step keeps at most one flow row per phone |
| `Registration.WithoutPhoneOneRow` | utils/fluxo_atendimento.py:18 | the DELETE keeps at most one flow row per phone |
| `Registration.FirstFlowAfterNoRow` | utils/fluxo_atendimento.py:19 | the row inserted for a phone without rows is the one the next step fetches |
| `Registration.RegistrationDialogue` | utils/fluxo_atendimento.py:15-54 | any first message, then a name, then a neighbourhood, give the three prompts in order and leave exactly one new customer row with that name, phone and neighbourhood, with the flow table as before |
| `Registration.DialogueStart` | utils/fluxo_atendimento.py:31-32 | the first message gives the phone one flow row at stage `nome` |
| `Registration.DialogueName` | utils/fluxo_atendimento.py:36-40 | the second message stores the name and moves the row to stage `bairro` |
| `Registration.DialogueBairro` | utils/fluxo_atendimento.py:42-54 | the third message registers the customer with the stored name and removes the flow row |
| `Webhook.Route` | app.py:148-176 | the keyword router: the alert wins exactly when a keyword occurs; then come the exact greetings and the `add ` prefix (handled by `AddRoute`); then the cart words, `finalizar` and the catalogue words; anything else is searched |
| `Webhook.NoAlertWithoutLetters` | app.py:150-151 | a text lacking the letters every alert keyword needs holds no alert keyword |
| `Webhook.FixedWordsHaveNoAlert` | app.py:150-168 | no greeting, cart, checkout or catalogue word holds an alert keyword or starts with `add ` |
| `Webhook.FixedWordsRoute` | app.py:151-169 | a message equal, ignoring case, to a fixed word takes that word's branch |
| `Webhook.LowerIntToString` | app.py:157-160 | lower-casing a decimal rendering changes nothing |
| `Webhook.AddRoute` | app.py:157-163 | the `add` branch yields the item exactly when the second and third tokens both parse as integers, with those values, and the usage text otherwise |
| `Webhook.RouteOfAddPrefix` | app.py:151-163 | a message starting with `add `, ignoring case, and holding no alert keyword takes the `add` branch on its own tokens |
| `Webhook.JoinedAddStartsWithAdd` | app.py:157 | tokens led by `add` join into a text starting with `add ` |
| `Webhook.AddUsesSecondAndThirdTokens` | app.py:157-163 | tokens led by `add` and joined by spaces are routed on those same tokens |
| `Webhook.AddTextLacksAlertLetters` | app.py:151 | the text `add <a> <b>` is lower case and holds no alert letter |
| `Webhook.AddTextWords` | app.py:158 | the text `add <a> <b>` is its three tokens joined by spaces |
| `Webhook.AddRoundTrip` | app.py:157-161 | `add <id> <qty>` written with any two integers reaches the cart with exactly those integers |
| `Webhook.AlertBeatsAdd` | app.py:151-163 | a message ending in an alert keyword raises the alert even when it is an `add` command |
| `Webhook.AlertKeywordsAreLower` | app.py:150 | the alert keywords are already lower case, so they match the lower-cased message |
| `Webhook.AlertKeywordAtEnd` | app.py:151 | an alert keyword at the end of a message is found |
| `Webhook.FirstHit` | app.py:96-97 | the search finds nothing exactly when no product of the tenant, active, has a name containing the message; otherwise it returns such a product |
| `Webhook.SearchProduct` | app.py:90-102 | a message shorter than three characters once stripped, or a database failure, finds nothing; a hit is an active product of the tenant whose name contains the message, ignoring case |
| `Webhook.ActiveCatalog` | app.py:79-88 | the catalogue holds exactly the tenant's active products, and nothing when the database fails |
| `Webhook.SearchHitInCatalog` | app.py:90-106 | every product the search finds is in the catalogue given to the assistant |
| `Webhook.FoundReply` | app.py:173-174 | the reply for a found product is never empty |
| `Webhook.FirstOpenVenda` | app.py:140-141 | the sale consulted is none exactly when the customer has no open sale with the tenant; otherwise it is such a sale |
| `Webhook.Deliver` | app.py:181-184 | one message to the sender is accepted by the gateway, or nothing when the gateway fails (the error is swallowed) |
| `Webhook.RunGuards` | app.py:115-176 | the guards and the router decide the outcome; only a call with the database up gets past the tenant lookup |
| `Webhook.LogAndSend` | app.py:178-191 | logs one row and sends one message; an empty reply is logged as the error text and answered with the fallback |
| `Webhook.HandleMessage` | app.py:113-193 | the call always answers 200; it logs and sends exactly what the decided outcome requires |
| `Webhook.MissingDataIsSilent` | app.py:115-121 | a sender that is missing or empty once "whatsapp:" is removed, or a missing or blank message, answers "Dados insuficientes" and neither logs nor sends |
| `Webhook.UnknownTenantIsSilent` | app.py:124-127 | a sender whose tenant lookup gives nothing (no conta owns the number, or the database cannot be reached) or the id 0 answers "OK" and neither logs nor sends |
| `Webhook.TestModeAdmitsOnlyDeveloper` | app.py:130-134 | with test mode on, only the developer's number gets past the guard |
| `Webhook.ManualModeSilencesBot` | app.py:129-144 | past the tenant and test-mode guards (test mode off, or the developer's own number), with the customer's first open sale in manual mode, the message is logged with the manual marker and nothing is sent |
| `Webhook.AnsweredLogsOnceSendsOnce` | app.py:178-191 | past the guards exactly one row is logged, with a non-empty reply, and one message is sent when the gateway works |
| `Webhook.EmptyReplyComesFromCollaborator` | app.py:148-176 | only the cart, checkout and catalogue helpers or the assistant can leave the reply empty; the fixed replies and a found product never do |
| `Panel.MarkThreadRead` | routes/ver_conversas.py:57 | the log becomes the old log with the conversation's rows marked read |
| `Panel.OpenHistory` | routes/ver_conversas.py:51-73 | marks the conversation read and returns its rows by ascending time; a database failure answers the error and changes nothing |
| `Panel.MarkReadChangesOnlyLido` | routes/ver_conversas.py:57 | marking read changes no row count and no column other than `lido` |
| `Panel.MarkReadKeepsOtherThreads` | routes/ver_conversas.py:57 | every other conversation reads exactly as before |
| `Panel.MarkReadKeepsLatest` | routes/ver_conversas.py:57 | reading a conversation never changes which reply the bot sent last, in any conversation |
| `Panel.HistoryIsTheReadThread` | routes/ver_conversas.py:57-60 | the history is exactly the conversation's rows, all read, in ascending time order |
| `Panel.ThreadLengthAfterMarkRead` | routes/ver_conversas.py:57 | marking read keeps the conversation's length |
| `Panel.SetManualMode` | routes/ver_conversas.py:99 | the sales become the old sales with the customer's open ones switched to manual |
| `Panel.ReplyCode` | routes/ver_conversas.py:84-106 | 400 exactly when the contact or the message is missing or empty, 200 exactly when the send and the logging succeed, and 500 otherwise |
| `Panel.PanelReply` | routes/ver_conversas.py:77-106 | sends the text, logs it as an attendant reply and switches the customer's open sales to manual, each only when the steps before it succeeded |
| `Panel.SetManualChangesOnlyOpenSales` | routes/ver_conversas.py:99 | the switch adds no sale and touches only the service mode |
| `Panel.SetManualFirstOpen` | routes/ver_conversas.py:99 | after the switch, the open sale the webhook consults is in manual mode, and exists exactly when one existed before |
| `Panel.HandoffSilencesBot` | routes/ver_conversas.py:99 | once an attendant has replied, the customer's next message past the test-mode filter (test mode off, or the developer's own number) is only logged and the bot stays silent |
| `Panel.NoOpenSaleNoSwitch` | routes/ver_conversas.py:99 | without an open sale the switch changes nothing, so the bot keeps answering |
| `Panel.OpenStatuses` | routes/ver_conversas.py:32 | the join finds no status exactly when the contact has no open sale with the tenant |
| `Panel.FindGroup` | routes/ver_conversas.py:34 | finds the group of a (contact, status) key, or reports that none exists |
| `Panel.EmptyGroup` | routes/ver_conversas.py:27-29 | a group with no rows has no unread rows and no latest time |
| `Panel.GroupStepFound` | routes/ver_conversas.py:34 | a row whose key has a group updates that group and keeps the grouping correct |
| `Panel.FoundTallies` | routes/ver_conversas.py:27-29 | the updated group counts the new row and the other groups are unchanged |
| `Panel.GroupStepNew` | routes/ver_conversas.py:34 | a row with a new key opens a group and keeps the grouping correct |
| `Panel.GroupCorrect` | routes/ver_conversas.py:25-34 | `GROUP BY` yields one group per key that occurs, each with its count, unread count and latest time |
| `Panel.ContactSummariesCorrect` | routes/ver_conversas.py:15-47 | the summary lists each (contact, status) group of the tenant's joined log once, with its tallies, newest first; the request fails (the route raises) exactly when the database cannot be reached |
| `Panel.OtherTenantsIgnored` | routes/ver_conversas.py:33 | other tenants' log rows never reach the summary |
| `Panel.CountAppend` | routes/ver_conversas.py:27-29 | counts and unread counts are additive over the rows |
| `Panel.CountOutside` | routes/ver_conversas.py:34 | rows of other keys do not count towards a group |
| `Panel.CountsWithoutOpenSale` | routes/ver_conversas.py:27-32 | for a contact with no open sale, the group without status counts exactly the conversation's messages and its unread ones |
| `ProductsPanel.TextsAppend` | routes/ver_produtos.py:32-47 | the clause texts of a concatenation are concatenated |
| `ProductsPanel.ConcatAppend` | routes/ver_produtos.py:35-47 | `+=` on the statement is associative across clauses |
| `ProductsPanel.RenderAppend` | routes/ver_produtos.py:35-47 | the statement text of a concatenation of clauses is the concatenation of their texts |
| `ProductsPanel.RenderSnoc` | routes/ver_produtos.py:35-47 | appending a clause appends its text |
| `ProductsPanel.BuildQuery` | routes/ver_produtos.py:32-47 | builds exactly the statement and the parameter list that the request's fields select |
| `ProductsPanel.ClausePlaceholders` | routes/ver_produtos.py:35-47 | the name and category clauses hold one `%s` each, the others none, and no clause ends in `%` |
| `ProductsPanel.RenderPlaceholders` | routes/ver_produtos.py:32-47 | the statement's placeholders are the sum of its clauses' placeholders |
| `ProductsPanel.PlaceholdersAppend` | routes/ver_produtos.py:35-39 | placeholders add up across a concatenation whose first part does not end in `%` |
| `ProductsPanel.PlaceholdersMatchParams` | routes/ver_produtos.py:32-48 | the statement has exactly one placeholder per parameter it is run with |
| `ProductsPanel.ClausesTakingParams` | routes/ver_produtos.py:34-39 | exactly the name and category clauses take a parameter |
| `ProductsPanel.QueryFrame` | routes/ver_produtos.py:32-47 | the statement always starts with the base selection and ends with `ORDER BY id` |
| `ProductsPanel.QueryWithoutFilters` | routes/ver_produtos.py:32-47 | with no filter, the statement is the base selection plus the ordering, with no parameter |
| `ProductsPanel.Filter` | routes/ver_produtos.py:34-45 | keeps exactly the products that match the name (ignoring case), the category and the status |
| `ProductsPanel.InsertCategory` | routes/ver_produtos.py:63 | adding a category keeps the list strictly ascending and adds exactly that category |
| `ProductsPanel.UniqueCategories` | routes/ver_produtos.py:63 | a strictly ascending list of exactly the non-empty categories of the listed products |
| `ProductsPanel.CategoriesDistinct` | routes/ver_produtos.py:63 | no category is offered twice |
| `ProductsPanel.ProductsPageCorrect` | routes/ver_produtos.py:22-68 | the page lists exactly the matching products, ordered by id, and offers their distinct categories in ascending order; both lists are empty when the database fails |
| `ProductsPanel.ListProducts` | routes/ver_produtos.py:28-68 | copies the selected rows in order and collects their categories; nothing when the database fails |
| `ProductsPanel.ShowProducts` | routes/ver_produtos.py:22-80 | strips the three fields and returns the page for them |
| `Training.FaqList` | routes/treinamento_bot.py:26-29 | the FAQ never has more entries than the shorter of the two lists |
| `Training.FaqListSelects` | routes/treinamento_bot.py:26-29 | the FAQ is the in-order subsequence of the positional pairs where neither side is blank, with nothing missing and nothing else |
| `Training.ShiftMembers` | routes/treinamento_bot.py:28 | moving past the first pair shifts every kept position by one |
| `Training.SelectsDrop` | routes/treinamento_bot.py:28 | a blank first pair is dropped |
| `Training.SelectsKeep` | routes/treinamento_bot.py:28 | a non-blank first pair is kept in front |
| `Training.FaqListMembers` | routes/treinamento_bot.py:26-29 | an entry is in the FAQ exactly when its question and answer were submitted at the same position and neither is blank |
| `Training.RowsOfAppend` | routes/treinamento_bot.py:61 | a tenant's rows in a concatenation are its rows in each part |
| `Training.OtherRowsAppend` | routes/treinamento_bot.py:61 | the other tenants' rows in a concatenation are theirs in each part |
| `Training.FindConfig` | routes/treinamento_bot.py:61 | the conflict target is the tenant's first row, or none |
| `Training.Upsert` | routes/treinamento_bot.py:50-78 | the submitted row is in the table afterwards |
| `Training.UpsertCorrect` | routes/treinamento_bot.py:50-78 | afterwards the tenant has exactly the submitted row, other tenants' rows are unchanged and in order, and tenants stay unique |
| `Training.UpsertReplaces` | routes/treinamento_bot.py:61-72 | the conflict path replaces the tenant's only row where it stands |
| `Training.ReplaceKeepsUnique` | routes/treinamento_bot.py:61 | overwriting a tenant's row keeps the tenants unique |
| `Training.SaveTraining` | routes/treinamento_bot.py:21-82 | saves exactly the upsert of the row built from the form, and nothing when the database cannot be reached |
| `Training.SaveKeepsOneRowPerTenant` | routes/treinamento_bot.py:21-80 | a save leaves the tenant exactly its submitted row with the non-blank FAQ pairs, and every other tenant's configuration untouched |
| `Twilio.AccountRow` | utils/twilio_utils.py:23-27 | the credentials row is none exactly when no conta has the id; otherwise it is that conta's row |
| `Twilio.ChooseCredentials` | utils/twilio_utils.py:7-39 | a truthy conta whose row has both subaccount values uses them; otherwise the master credentials are used, and none when either is missing or empty |
| `Twilio.DatabaseFailureUsesMaster` | utils/twilio_utils.py:31-32 | a database failure while reading the subaccount falls back to the master credentials |
| `Twilio.SendText` | utils/twilio_utils.py:41-52 | the gateway accepts one message with the given numbers and body, or the call raises and nothing is sent |
| `Twilio.BuildActions` | utils/twilio_utils.py:63-71 | one reply action per button, in order, carrying the button's id and title |
| `Twilio.ButtonLinesFromAppend` | utils/twilio_utils.py:88-89 | the numbering continues across a concatenation of buttons |
| `Twilio.ButtonsFallbackText` | utils/twilio_utils.py:87-89 | the fallback text is the body, a blank line and one numbered line per button |
| `Twilio.ButtonsChecksInOrder` | utils/twilio_utils.py:59-61 | missing credentials are reported first, then more than three buttons, and only a send that passes both is made |
| `Twilio.SendReplyButtons` | utils/twilio_utils.py:54-90 | after the checks, the fallback text is sent as one message, or nothing is sent |
| `Twilio.RowLinesStep` | utils/twilio_utils.py:128-129 | each row adds one dash line |
| `Twilio.SectionLinesStep` | utils/twilio_utils.py:126-129 | each section adds its bold title and its rows |
| `Twilio.ListFallbackText` | utils/twilio_utils.py:125-129 | the fallback is the body, a blank line, then each section's bold title and dash lines |
| `Twilio.ListChecks` | utils/twilio_utils.py:100-101 | with credentials found, an empty list or a section without rows is refused; a sent list is well formed |
| `Twilio.SendListPicker` | utils/twilio_utils.py:92-130 | after the checks, the list fallback text is sent as one message, or nothing is sent |
| `Views.RunStep` | utils/view_handlers.py:53-67 | a screen's sends run in order and the first that raises ends it |
| `Views.NoTooManyButtons` | utils/twilio_utils.py:60-61 | a screen within the three-button limit never raises the too-many-buttons error |
| `Views.RunWithoutCredentials` | utils/twilio_utils.py:36-37 | without credentials, a screen stops at its first send and delivers nothing |
| `Views.RunDeliversAll` | utils/view_handlers.py:53-67 | with credentials, a working gateway and well-formed requests, every request is delivered once, in order |
| `Views.AllOrNothing` | utils/view_handlers.py:7-73 | a screen of well-formed requests delivers everything or nothing |
| `Views.ViewsWithinButtonLimit` | utils/view_handlers.py:13-19 | no screen asks for more than three buttons |
| `Views.ViewsListsValid` | utils/view_handlers.py:29-42 | every list a screen sends is well formed |
| `Views.ProductsViewShape` | utils/view_handlers.py:44-67 | a non-empty product list gives a header and then one card per product, in order, each with its own add-to-cart and details buttons |
| `Views.CategoriesViewShape` | utils/view_handlers.py:29-42 | the category list holds one row per category, in order, keyed by the category name |
| `Views.SendInitialView` | utils/view_handlers.py:7-19 | sends the main menu with the configured greeting or the default one |
| `Views.BuildCategoryRows` | utils/view_handlers.py:29-31 | one row per category, in order, with id `category_<name>` |
| `Views.SendCategoriesView` | utils/view_handlers.py:21-42 | sends the category list, or the empty-catalogue text when there is no category |
| `Views.SendProductsView` | utils/view_handlers.py:44-67 | sends the not-found text, or the header and one card per product, stopping at the first send that raises |
| `Views.RunFirstFails` | utils/view_handlers.py:48-53 | a screen whose first send raises delivers nothing |
| `Views.SendCards` | utils/view_handlers.py:56-67 | once a text send is known to go through, every card is delivered in order |
| `Views.RunAllSent` | utils/view_handlers.py:53-67 | when every send goes through, every request is delivered, in order |
| `Views.SendProductCard` | utils/view_handlers.py:58-67 | sends one product's card with its two buttons |
| `Views.RunStopped` | utils/view_handlers.py:53-67 | once a send has raised, the remaining requests change nothing |
| `Views.SendTalkToHumanView` | utils/view_handlers.py:69-73 | sends the fixed hand-over text |

## Left out

- The webhook's collaborators are replies given as parameters (`Webhook.Collaborators`):
  - `adicionar_ao_carrinho`, `ver_carrinho` and `listar_categorias` are called at app.py:161, 165 and 169 with arguments that do not fit the signatures in `utils/fluxo_vendas.py`;
  - `finalizar_compra` is imported at app.py:27 but not defined there;
  - the AI assistant (`get_gpt_response`) needs the OpenAI API.
  The sales-flow functions are modelled on their own, with the signatures they declare.
- `get_conta_id_from_sender` (app.py:124) is not defined in `utils/db_utils.py`. It is modelled as `get_conta_id_from_number` applied to the prefixed sender.
- `send_whatsapp_message` (app.py:26) is not defined in `utils/twilio_utils.py`. It is modelled as a plain send whose failure is swallowed (`Webhook.Deliver`).
- `get_bot_config` is not defined in `utils/db_utils.py`, so the imports at utils/view_handlers.py:3 and routes/treinamento_bot.py:9 fail as written. It is not part of this model:
  - the initial screen takes the configured greeting as a parameter;
  - the GET path of the training page, which only calls it, is not modelled.
- `Views.SendCategoriesView`, `Views.SendProductsView`: as written these screens cannot be produced. utils/view_handlers.py:23 calls `listar_categorias(conta_id)`, but utils/fluxo_vendas.py:4 declares no parameter; utils/view_handlers.py:46 calls `listar_produtos_categoria(conta_id, category_name)`, but utils/fluxo_vendas.py:7 declares one. Both calls raise `TypeError` before anything is sent, and both functions return a string rather than a list of rows. The model takes the category list and the product list as parameters and states what the screens send when given them.
- `listar_categorias` (utils/fluxo_vendas.py:4-5) returns a fixed menu text and reads no state. Its only callers (app.py:169 and utils/view_handlers.py:23) pass it an argument it does not accept, so no modelled path reaches it and it is not modelled.
- The GET path of the training page sits in the same `try` as the POST path. Its error page (`{'faq_list': []}`) is not modelled.
- The image routes of `routes/ver_produtos.py` (`upload_imagem`, `imagem_produto`) and the `imagem_url` column are not modelled. They only move binary data.
- I/O is not modelled: Flask request parsing, templates, `flash`, redirects, JSON responses, logging and `print`.
- Connection handling is not modelled: opening and closing connections, cursors, commits and rollbacks. For the operations that take an `Env`, a database failure is one flag per call (`Env.dbUp`), and the model assumes it fails before any write. A connection that opens but whose INSERT fails (swallowed by `salvar_conversa`, utils/db_utils.py:85-86) is not a separate case, nor is a summary query that fails on an open connection (caught at routes/ver_conversas.py:41-43, which then shows an empty summary).
- Concurrency between requests is not modelled. Each operation is atomic.
- Time is not modelled: `datetime.now()` and `NOW()` are the caller-supplied integer `now`. `isoformat` of the history is not modelled.
- Floating point is not modelled:
  - prices are integer cents;
  - `:.2f` is `Text.Money`;
  - `float(...)` is the identity on cents.
- `Text.Lower`, `Text.Upper`, `Text.Capitalize`: case mapping covers the ASCII letters and the Latin-1 letters that have a Latin-1 counterpart (U+00C0-U+00DE and U+00E0-U+00FE, without U+00D7 and U+00F7), not the rest of Unicode. Three Latin-1 letters are left unchanged, where Python changes them: 'ß' (`upper()` gives 'SS' and `capitalize()` gives 'Ss', so Python's result is one character longer, against the kept length of `Text.Capitalize`), 'ÿ' (upper-cased to U+0178) and 'µ' (upper-cased to U+039C). The model's `Text.Capitalize` treats 'ÿ' and 'µ' as not lower-case.
- `Text.ParseInt`: `int()` accepts an optional sign and ASCII digits. Underscores, surrounding whitespace inside a token and non-ASCII digits are not modelled.
- `LIKE`/`ILIKE` patterns are modelled as substring containment. A `%` or `_` typed by the user is taken literally, not as a wildcard.
- `Sorting.SortBy`: `ORDER BY` is modelled as a stable sort, so rows with equal keys keep table order. PostgreSQL leaves their order unspecified.
- `Training.ConfigFromForm`: the FAQ column holds the list itself, not its JSON text (`json.dumps` with `indent=2`).
- `Twilio.SendReplyButtons`, `Twilio.SendListPicker`: the interactive request is never modelled as sent, because `json` is not imported. The message content template, the footer and the list's button text therefore never reach the gateway.
- A gateway failure inside `send_text` is modelled as a raise with nothing sent. A partial delivery is not modelled.
- `listar_produtos_categoria`, `adicionar_ao_carrinho` and `ver_carrinho` connect through a module `database` that is not part of this model, with no `try`. They are modelled as always reaching the database.
- `Registration.StartRegistration`, `Registration.ProcessRegistration`: `iniciar_cadastro` and `processar_cadastro` open their own connection (`get_connection`, utils/fluxo_atendimento.py:5-12, read from lower-case environment variable names) with no `try` (utils/fluxo_atendimento.py:16, 26). A failed connection raises before any statement runs. These methods take no `Env` and are modelled as always reaching the database, so that raise is not modelled.
