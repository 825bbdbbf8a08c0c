# Wholesale product import for WooCommerce, modelled in Dafny

This project models the core of a WordPress plugin that imports products from
several promotional-goods wholesalers into a WooCommerce shop. Each
wholesaler is one importer:

- PAR (`hurtownia3`): a JSON or XML HTTP API.
- AXPOL: an XML file on an FTP server, with images on a second FTP server.
- Inspirion (`hurtownia4`): an XML file on an FTP server.
- Macma (`hurtownia5`): four XML documents from a web API.
- Malfini (`hurtownia6`): a REST API behind a bearer token.

Every importer does the same three things. It gets its supplier documents
from a local copy in the uploads directory or from the supplier. It
reconciles each record against the catalog by SKU: the record is created,
updated, skipped or counted as an error. It places the product's categories,
attributes and images.

Around the importers sit three more parts:

- The standard attribute taxonomies (`Kolor`, `Materiał`, ...) and the mapping of supplier fields onto them.
- The admin side: settings sanitisation, the dispatch of an import to a wholesaler's importer, the scheduled import and category get-or-create.
- The activator: it creates the local directories and stores the default settings.

The shop is modelled by two classes:

- `Shop.Catalog`: products keyed by SKU.
- `Shop.Site`: terms, term meta, term assignments, media attachments, featured images, galleries, attribute meta and registered attribute taxonomies.

The importers are classes too. Their methods update these fields in place,
and each method is proved against a pure specification function:
- `ParRun` for PAR;
- `AxpolRun` for AXPOL;
- `InspirionRun` for Inspirion;
- `MacmaRun` for Macma;
- `MalfiniRun` for Malfini;
- `ImportAll` for Macma and Inspirion images;
- `Categories` for AXPOL categories;
- `Merge` for the activator;
- and so on.

Lemmas state what the plugin promises about these functions:
- which counters a run moves;
- that a second run imports nothing;
- which records reach the catalog;
- that get-or-create and image de-duplication settle;
- when the token code talks to the server.

Some things outside the model are fixed by parameters instead:
- which saves fail (`Catalog.faulty`);
- which products the SKU lookup finds but WooCommerce cannot load (`Catalog.broken`);
- which term names and attribute slugs WordPress refuses;
- which URLs and remote files download (`Site.reachable`);
- the server replies, as `HttpReply`, `FtpReply` and Malfini's scripted `Reply` queue;
- the clock, as a `now` parameter.

Parsing an XML or JSON document is not modelled: a `Cache.Blob` carries the records its decoding yields.

The model follows the code, which behaves as follows:
- The importers do not all reset their counters at the start of a run. PAR and Inspirion do; AXPOL, Macma and Malfini do not.
- Macma uses a local copy whatever its age. PAR uses a fresh local JSON copy whenever its text is non-empty, even when it does not decode.
- `total = imported + updated + skipped + errors` fails for Macma. There a broken existing product moves both the error and the updated counter (`Macma.MacmaRunCounts`).
- PAR counts an existing SKU as updated whatever `update_existing` says.
- Only PAR, Inspirion, Macma and Malfini reject records without the required fields, and each asks for different fields.
- Only AXPOL catches exceptions record by record (`create_product` and `update_product`). The handlers of PAR, Inspirion and Macma enclose the whole run, so an exception thrown while importing one record ends the run.
- Inspirion's `create_product` does not check what `save()` returns. A new product whose save fails is still counted as imported (`Inspirion.InspirionStep`).
- The wholesaler numbering is not consistent across the plugin:
  - The dispatch in `import_products` runs AXPOL for `hurtownia2` and Macma for `hurtownia5`.
  - The AXPOL importer reads `hurtownia1_*` keys for its products and `hurtownia2_ftp_images_*` keys for its images.
  - The activator's defaults call AXPOL `hurtownia1` and Macma `hurtownia2`, and put Malfini under `hurtownia6`. The dispatch has no `hurtownia6`, so it answers "Nieznana hurtownia." for it.
- The admin reads its settings from the option `kc-hurtownie-settings`. The activator writes `kc_hurtownie_settings`. `Admin` and `Activator` therefore work on separate settings maps.

## Model

| member | source | states |
|---|---|---|
| Php.TrimSlashes | admin/class-kc-hurtownie-admin.php:211 | `trim($v, '/')` is the input with the runs of slashes at both ends removed: the input is the result between two all-slash strings, and the result neither starts nor ends with a slash; it is empty only for an all-slash input |
| Php.TrimSlashesWrapped | admin/class-kc-hurtownie-admin.php:211-213 | trimming `/t/` gives back `t` when `t` has no end slashes |
| Php.Ucfirst | includes/class-kc-hurtownie-axpol-importer.php:452 | only the first character changes, to its ASCII upper case |
| Php.IntVal | includes/class-kc-hurtownie-inspirion-importer.php:325-328 | `intval` of a string: 0 for the empty string, non-negative for a leading digit |
| Php.IntValDecimal | includes/class-kc-hurtownie-inspirion-importer.php:325-328 | `intval` reads back the integer PHP writes as a string, with or without a sign |
| Php.BasenameShape | includes/class-kc-hurtownie-inspirion-importer.php:480 | `basename` holds no slash and is how the path ends once trailing slashes are dropped |
| Php.Pad2 | includes/class-kc-hurtownie-axpol-importer.php:387 | two-digit zero padding of 0..99 |
| Records.Field | includes/class-kc-hurtownie-par-importer.php:482-516 | a missing key reads as "" |
| Records.FirstWhere | includes/class-kc-hurtownie-macma-importer.php:425-430 | 1 + the index of the first element satisfying the test, 0 when none does; nothing before it satisfies the test |
| Records.Bump | includes/class-kc-hurtownie-par-importer.php:483 | the sum of the counters grows by 1, or by 2 for a double-counted outcome |
| Records.TallySum | includes/class-kc-hurtownie-macma-importer.php:470-475 | the four counters add up to the records plus the double-counted ones |
| Records.TallySumSingle | includes/class-kc-hurtownie-par-importer.php:483-522 | without double-counted outcomes the counters add up to the records |
| Records.TallyNoSkips | includes/class-kc-hurtownie-par-importer.php:479-524 | a run without skipped outcomes leaves `skipped` at 0 |
| Records.Stats.constructor | includes/class-kc-hurtownie-par-importer.php:93-101 | the counters tally an empty log and the total is 0 |
| Records.Stats.Reset | includes/class-kc-hurtownie-par-importer.php:97-101 | the counters equal the tally of an empty log and the total is 0 |
| Records.Stats.Count | includes/class-kc-hurtownie-par-importer.php:483 | the outcome is appended to the log and the counters stay the tally of the log |
| Records.OptionsOf | includes/class-kc-hurtownie-macma-importer.php:151 | `update_existing` is truthy exactly when set and non-empty; the limit is positive exactly when `import_limit` is set with a positive integer value |
| Records.Reached | includes/class-kc-hurtownie-macma-importer.php:151-163 | a limited run reaches `min(n, limit)` records; an unlimited one reaches all |
| Shop.WithStock | includes/class-kc-hurtownie-par-importer.php:572-576 | the stock becomes managed with the integer quantity, in stock exactly when the quantity is positive; no other field changes |
| Shop.FindTerm | includes/class-kc-hurtownie-axpol-importer.php:544 | the id of the first term with this name, taxonomy (and parent), or 0 when none matches |
| Shop.TermByMeta | includes/class-kc-hurtownie-par-importer.php:458-469 | a non-zero id has a meta row with that key and value; with no such row the id is 0 |
| Shop.PutTermMeta | includes/class-kc-hurtownie-macma-importer.php:391 | after `update_term_meta` the row (term, key, value) is present and every row for another term or key is kept |
| Shop.AppendTerms | includes/class-kc-hurtownie-axpol-importer.php:560 | appending terms to a product keeps the old ones in front and adds only new ids |
| Shop.Site.InsertTerm | includes/class-kc-hurtownie-macma-importer.php:381-388 | `wp_insert_term` returns 0 when refused (empty name, refused name, missing parent, sibling of the same name), else appends the term and returns its id |
| Shop.Site.EnsureTerm | includes/class-kc-hurtownie-axpol-importer.php:544-547 | get-or-create on the site is `GetOrCreate` on the old terms |
| Shop.Site.SetObjectTerms | includes/class-kc-hurtownie-axpol-importer.php:560 | replaces or appends the product's terms in one taxonomy; nothing else changes |
| Shop.Site.AddAttachment | includes/class-kc-hurtownie-inspirion-importer.php:512 | a new attachment with the stored file name; its id is the new count of attachments |
| Shop.Site.SetImages | includes/class-kc-hurtownie-inspirion-importer.php:455-463 | the first id is the featured image; the rest become the gallery, and only when there are at least two |
| Shop.GetOrCreate | includes/class-kc-hurtownie-axpol-importer.php:544-547 | the first matching term when there is one; otherwise a new term under the parent, or 0 when the insert is refused |
| Shop.GetOrCreateAgain | includes/class-kc-hurtownie-axpol-importer.php:544-547 | asking again for the same name finds the same term and creates nothing |
| Shop.FindTermExtend | includes/class-kc-hurtownie-axpol-importer.php:544 | adding terms does not change which term a lookup finds first |
| Shop.FindTermSnoc | includes/class-kc-hurtownie-axpol-importer.php:544 | after one term is appended to terms with no match, a lookup finds exactly that term when it matches, and nothing otherwise |
| Shop.ResolveTerms | includes/class-kc-hurtownie-inspirion-importer.php:428 | `wp_set_object_terms` resolving its entries: the terms only grow, and every resolved id is a term of the taxonomy |
| Shop.SetObjectTermsWith | includes/class-kc-hurtownie-inspirion-importer.php:428 | `wp_set_object_terms`: the terms only grow; the product gets an entry for the taxonomy and every other assignment is kept |
| Shop.SetObjectTermsByIds | includes/class-kc-hurtownie-axpol-importer.php:560 | handed int ids of existing terms of the taxonomy, `wp_set_object_terms` creates nothing and replaces or appends exactly those ids, as `Site.SetObjectTerms` does |
| Shop.ResolveNewName | includes/class-kc-hurtownie-inspirion-importer.php:428 | a string entry that is not empty, not refused and names no term is created at the top level and resolves to the new id |
| Cache.ParProducts | includes/class-kc-hurtownie-par-importer.php:157-243 | a fresh local copy is used (XML when it decodes, JSON when non-empty); otherwise the API is asked and an accepted reply replaces the local copy |
| Cache.ParCacheReused | includes/class-kc-hurtownie-par-importer.php:171-184 | within a day of storing a good reply, the next fetch uses the local copy and does not ask the API |
| Cache.FtpProducts | includes/class-kc-hurtownie-inspirion-importer.php:146-199 | a fresh local copy that decodes is used; otherwise the FTP download replaces the local copy; a failed download yields nothing |
| Cache.FtpStaleAsks | includes/class-kc-hurtownie-inspirion-importer.php:154 | a copy a day old or older never stops the FTP fetch from asking the server |
| Cache.MacmaXml | includes/class-kc-hurtownie-macma-importer.php:236-304 | a local copy is used whatever its age; otherwise a reply's non-empty body is stored and decoded; a WP_Error or an empty body yields nothing |
| Cache.MacmaXmlRepeatable | includes/class-kc-hurtownie-macma-importer.php:243-281 | fetching again with the same reply returns the same data |
| Cache.MacmaXmlSticky | includes/class-kc-hurtownie-macma-importer.php:243-281 | once a body is stored, later replies are never read, even when the stored body came with an error status |
| Cache.ParStockRows | includes/class-kc-hurtownie-par-importer.php:325-375 | stock rows are read only from a 200 reply with a non-empty body that decodes |
| Media.Downloadable | includes/class-kc-hurtownie-par-importer.php:667-693 | the URLs whose download succeeds, in order, never more than were given |
| Media.DownloadImages | includes/class-kc-hurtownie-par-importer.php:667-693 | every URL that downloads becomes a new attachment; the first is the featured image and, with several, the rest the gallery |
| Media.DownloadAll | includes/class-kc-hurtownie-par-importer.php:675-683 | the attachments grow by the base names of the downloadable URLs; the ids returned are the new attachments' ids |
| Media.ImportImage | includes/class-kc-hurtownie-inspirion-importer.php:477-524 | an attachment whose stored name ends with the base name is reused; else a reachable URL becomes a new attachment; else 0; the id returned names an attachment ending with the base name |
| Media.ImportAll | includes/class-kc-hurtownie-inspirion-importer.php:439-467 | importing a list keeps the earlier attachments and returns ids of existing attachments |
| Media.ImportAllCovers | includes/class-kc-hurtownie-inspirion-importer.php:477-486 | after an import every reachable URL has an attachment named after its base name |
| Media.ImportAllAgain | includes/class-kc-hurtownie-inspirion-importer.php:477-486 | importing the same images a second time adds no attachment |
| Media.ImportImageInto | includes/class-kc-hurtownie-macma-importer.php:689-736 | `import_image` on the site is `ImportImage` on the old attachments |
| Media.ImportImagesInto | includes/class-kc-hurtownie-macma-importer.php:651-679 | each URL imported in turn; the first id obtained is the featured image, the others the gallery |
| Media.ImportEach | includes/class-kc-hurtownie-inspirion-importer.php:448-453 | the loop's attachments and ids are those of `ImportAll` |
| Attributes.TaxonomyOf | includes/class-kc-hurtownie-attributes.php:212 | the attribute taxonomy is `pa_` followed by the slug |
| Attributes.ToCreateMembers | includes/class-kc-hurtownie-attributes.php:53-65 | a slug is created exactly when it is a standard slug not yet registered |
| Attributes.AcceptedMembers | includes/class-kc-hurtownie-attributes.php:86-91 | exactly the slugs WooCommerce does not refuse are registered |
| Attributes.InitSettles | includes/class-kc-hurtownie-attributes.php:50-66 | after `init_attributes` a second call creates nothing |
| Attributes.Registered | includes/class-kc-hurtownie-attributes.php:94 | the registered taxonomies include each slug's `pa_` taxonomy |
| Attributes.InitAttributes | includes/class-kc-hurtownie-attributes.php:50-66 | the attribute list grows by the accepted missing standard slugs and their taxonomies are registered |
| Attributes.CreateMissing | includes/class-kc-hurtownie-attributes.php:61-65 | the loop creates the missing slugs in order |
| Attributes.CreateAttribute | includes/class-kc-hurtownie-attributes.php:76-119 | a refused slug changes nothing and returns false; otherwise the slug is recorded and its taxonomy registered |
| Attributes.MapPairs | includes/class-kc-hurtownie-attributes.php:182-186 | the mapped pairs are the (slug, value) of the mapping entries whose field is set and non-empty, in order |
| Attributes.MapPairsDistinct | includes/class-kc-hurtownie-attributes.php:182-186 | distinct slugs stay distinct after mapping |
| Attributes.MapAttributes | includes/class-kc-hurtownie-attributes.php:179-186 | a non-empty custom mapping replaces the supplier's default one |
| Attributes.DefaultMappingExact | includes/class-kc-hurtownie-attributes.php:135-186 | with the default mapping a slug is mapped exactly when its field is set and non-empty |
| Attributes.UnknownSupplierMapsNothing | includes/class-kc-hurtownie-attributes.php:179 | a supplier without a default mapping and no custom one maps nothing |
| Attributes.AttributeRows | includes/class-kc-hurtownie-attributes.php:235-243 | at most one meta row per pair, for a pair that attaches, numbered consecutively |
| Attributes.AttachOne | includes/class-kc-hurtownie-attributes.php:207-232 | a pair attaches exactly when its value is non-empty, its taxonomy is registered and a term is found or inserted; that term is then assigned to the product and the product's categories are untouched |
| Attributes.AddAttributesToProduct | includes/class-kc-hurtownie-attributes.php:198-247 | an unknown product is left alone; otherwise each attaching pair gets its term assigned and the attribute meta lists their taxonomies in order |
| Attributes.AttachAll | includes/class-kc-hurtownie-attributes.php:207-243 | the loop returns the meta rows of `AttributeRows` |
| Par.StocksKeys | includes/class-kc-hurtownie-par-importer.php:392-395 | the stock map has a key for exactly the product ids that occur in the entries |
| Par.StocksLastWins | includes/class-kc-hurtownie-par-importer.php:392-395 | for a product id listed several times the last entry wins |
| Par.CollectStocks | includes/class-kc-hurtownie-par-importer.php:377-381 | the collection loop builds `StocksOf` |
| Par.Stocked | includes/class-kc-hurtownie-par-importer.php:572-576 | without a stock entry the product is unchanged; with one its stock is managed with that quantity |
| Par.ParStep | includes/class-kc-hurtownie-par-importer.php:479-524 | an error exactly when a required field is missing or a new SKU's save fails; updated exactly when the SKU exists, whatever `update_existing` says; only an import adds a SKU |
| Par.ParRun | includes/class-kc-hurtownie-par-importer.php:128-130 | one outcome per record |
| Par.ParRunOutcomes | includes/class-kc-hurtownie-par-importer.php:479-524 | every record moves exactly one of imported, updated and errors |
| Par.ParRunCounts | includes/class-kc-hurtownie-par-importer.php:125-130 | imported + updated + errors equals the number of records and nothing is skipped |
| Par.ParRunCovers | includes/class-kc-hurtownie-par-importer.php:489-522 | after a run every complete record's SKU is in the catalog unless it was new and its save failed |
| Par.ParRunGrows | includes/class-kc-hurtownie-par-importer.php:479-524 | a run never removes a product |
| Par.ParRunAgain | includes/class-kc-hurtownie-par-importer.php:489-504 | running the same records again imports nothing |
| Par.ParRunNoImports | includes/class-kc-hurtownie-par-importer.php:489-504 | when every complete record's SKU exists or fails to save, a run imports nothing |
| Par.ParRunIgnoresIncomplete | includes/class-kc-hurtownie-par-importer.php:482-486 | incomplete records change nothing in the catalog |
| Par.Completes | includes/class-kc-hurtownie-par-importer.php:482 | the records kept all have the required fields |
| Par.ParImporter.constructor | includes/class-kc-hurtownie-par-importer.php:82-85 | zero counters; the format and the options are read from the settings |
| Par.ParImporter.Place | includes/class-kc-hurtownie-par-importer.php:590-600 | the category is set through the term meta lookup; the images are downloaded when enabled |
| Par.ParImporter.ImportProduct | includes/class-kc-hurtownie-par-importer.php:479-658 | the catalog and outcome are `ParStep`'s; the site is placed exactly when the record reaches the category and image code |
| Par.ParImporter.Import | includes/class-kc-hurtownie-par-importer.php:93-149 | counters reset; a fetch yielding no records fails with its message and changes nothing; otherwise the catalog and outcomes are `ParRun`'s over the records, with the stocks from the stocks reply, and the total is the record count |
| Par.ParImporter.ImportEach | includes/class-kc-hurtownie-par-importer.php:128-130 | the loop's catalog and outcomes are `ParRun`'s |
| Par.ParImporter.ImportNext | includes/class-kc-hurtownie-par-importer.php:128-130 | one record imported and counted; catalog and outcomes are `ParRun`'s over one more record |
| Axpol.Photos | includes/class-kc-hurtownie-axpol-importer.php:386-391 | the photos collected are non-empty and at most one per slot |
| Axpol.PhotosExact | includes/class-kc-hurtownie-axpol-importer.php:386-391 | a value is collected exactly when some slot `Foto01`..`FotoNN` holds it and it is non-empty |
| Axpol.CollectPhotos | includes/class-kc-hurtownie-axpol-importer.php:386-391 | the loop over `Foto01`..`Foto20` collects `Photos(row, 20)` |
| Axpol.RowAttributes | includes/class-kc-hurtownie-axpol-importer.php:373-381 | each attribute key is paired with its row field, in order |
| Axpol.ParseRows | includes/class-kc-hurtownie-axpol-importer.php:362-394 | one product record per row, in order |
| Axpol.RowProductFields | includes/class-kc-hurtownie-axpol-importer.php:363-391 | a row's record carries its code, price, categories, seven attributes and at most 20 images |
| Axpol.ParseXmlData | includes/class-kc-hurtownie-axpol-importer.php:349-397 | an XML text that loads yields one record per row; an array yields nothing |
| Axpol.AsWrittenNeverImports | includes/class-kc-hurtownie-axpol-importer.php:104-120 | as written any non-empty product document ends in the parse failure with one more error, as on PHP 7 (on PHP 8 the run dies with an uncaught `TypeError`); it never imports |
| Axpol.CorrectedProducts | includes/class-kc-hurtownie-axpol-importer.php:362-394 | the intended records: one per loaded row, exactly when rows were loaded |
| Axpol.CorrectedIsParse | includes/class-kc-hurtownie-axpol-importer.php:349-397 | the corrected records are what `parse_xml_data` yields on the XML text the rows came from |
| Axpol.LocalAttributesFrom | includes/class-kc-hurtownie-axpol-importer.php:448-458 | every attribute built comes from a pair with a non-empty value, named `ucfirst(key)`, visible |
| Axpol.LocalAttributesCover | includes/class-kc-hurtownie-axpol-importer.php:448-458 | every pair with a non-empty value yields its attribute |
| Axpol.BuildAttributes | includes/class-kc-hurtownie-axpol-importer.php:448-458 | the attribute loop builds `LocalAttributes` |
| Axpol.AxpolStep | includes/class-kc-hurtownie-axpol-importer.php:405-531 | skipped exactly when the SKU exists and updating is off; imported exactly when it is new and saves; updated exactly when it exists, updating is on and it loads and saves |
| Axpol.AxpolRun | includes/class-kc-hurtownie-axpol-importer.php:126-128 | one outcome per record |
| Axpol.AxpolRunCounts | includes/class-kc-hurtownie-axpol-importer.php:122-128 | the four counters of a run add up to its records |
| Axpol.AxpolRunKeepsExisting | includes/class-kc-hurtownie-axpol-importer.php:412-416 | with updating off an existing product is never changed |
| Axpol.AxpolRunNewStock | includes/class-kc-hurtownie-axpol-importer.php:443-445 | every product a run creates is stock-managed, quantity 10, in stock |
| Axpol.AxpolRunGrows | includes/class-kc-hurtownie-axpol-importer.php:405-421 | a run never removes a product |
| Axpol.AxpolRunCovers | includes/class-kc-hurtownie-axpol-importer.php:405-421 | after a run every record's SKU is in the catalog unless it was new and its save failed |
| Axpol.AxpolRunAgain | includes/class-kc-hurtownie-axpol-importer.php:408-420 | running the same records again imports nothing |
| Axpol.AxpolRunNoImports | includes/class-kc-hurtownie-axpol-importer.php:408-420 | when every SKU exists or fails to save, a run imports nothing |
| Axpol.Categories | includes/class-kc-hurtownie-axpol-importer.php:540-569 | an empty main category places nothing; the terms only grow |
| Axpol.CategoriesGiven | includes/class-kc-hurtownie-axpol-importer.php:540-569 | a term is assigned exactly when main is non-empty and found or created |
| Axpol.CategoriesChoice | includes/class-kc-hurtownie-axpol-importer.php:540-569 | with the id read as an int, the assigned term is a product category named main, or a sub named as asked under a term named main |
| Axpol.SubChoice | includes/class-kc-hurtownie-axpol-importer.php:552-563 | once main is found or created, the term the product gets is a product category named main, or named sub and under a term named main |
| Axpol.CategoriesAgain | includes/class-kc-hurtownie-axpol-importer.php:540-569 | with the id read as an int, placing the categories again creates no term and assigns the same one |
| Axpol.CategoriesRef | includes/class-kc-hurtownie-axpol-importer.php:540-569 | as written: the same lookups and inserts as `Categories`, and an id is handed on exactly when `Categories` assigns one |
| Axpol.AsWrittenPlaceNew | includes/class-kc-hurtownie-axpol-importer.php:544-548 | as written, a new main category is created and the product gets exactly its id |
| Axpol.AsWrittenPlaceAgain | includes/class-kc-hurtownie-axpol-importer.php:544-565 | as written, when main was created by the previous placement, a term named by main's id is created and added to the product's categories |
| Axpol.AsWrittenPlaceRerun | includes/class-kc-hurtownie-axpol-importer.php:540-569 | as written, placing a new product twice under a new main category leaves it in main and in a second category named by main's id |
| Axpol.FtpImages | includes/class-kc-hurtownie-axpol-importer.php:636-664 | the images fetched are never more than the names |
| Axpol.AxpolImporter.constructor | includes/class-kc-hurtownie-axpol-importer.php:82-85 | zero counters; options and images path from the settings, with the default path |
| Axpol.AxpolImporter.AddCategories | includes/class-kc-hurtownie-axpol-importer.php:540-569 | with the id handed on as an int, the site's terms and assignments are those of `Categories` |
| Axpol.AxpolImporter.ImportImages | includes/class-kc-hurtownie-axpol-importer.php:578-679 | with a non-empty list and the session open, every fetched image becomes an attachment, the first the featured image, the rest the gallery |
| Axpol.AxpolImporter.FetchAll | includes/class-kc-hurtownie-axpol-importer.php:636-664 | the attachments grow by the names that download from `imagesPath + name` |
| Axpol.AxpolImporter.Place | includes/class-kc-hurtownie-axpol-importer.php:463-471 | categories and images each placed only when enabled |
| Axpol.AxpolImporter.ImportProduct | includes/class-kc-hurtownie-axpol-importer.php:405-531 | the catalog and outcome are `AxpolStep`'s; the site is placed only for an import or an update |
| Axpol.AxpolImporter.Import | includes/class-kc-hurtownie-axpol-importer.php:93-148 | counters not reset; a fetch that yields nothing fails and changes nothing; otherwise the catalog and outcomes are `AxpolRun`'s over the intended records and the import time is stored |
| Axpol.AxpolImporter.ImportEach | includes/class-kc-hurtownie-axpol-importer.php:126-128 | the loop's catalog and outcomes are `AxpolRun`'s |
| Axpol.AxpolImporter.ImportCounted | includes/class-kc-hurtownie-axpol-importer.php:126-128 | one record imported and counted; catalog and outcomes follow `AxpolStep` |
| Inspirion.Revised | includes/class-kc-hurtownie-inspirion-importer.php:310-329 | the name is always set; description, short description, price and stock only when present; a quantity makes the stock managed, in stock exactly when positive |
| Inspirion.InspirionStep | includes/class-kc-hurtownie-inspirion-importer.php:248-275 | an error exactly when id, name or sku is missing; skipped exactly when the SKU exists and updating is off; updated when it exists and updating is on, even when it cannot be loaded; otherwise imported, with the product added unless its unchecked save fails |
| Inspirion.InspirionRun | includes/class-kc-hurtownie-inspirion-importer.php:116-118 | one outcome per record |
| Inspirion.InspirionRunSingle | includes/class-kc-hurtownie-inspirion-importer.php:248-275 | every record moves exactly one counter |
| Inspirion.InspirionRunCounts | includes/class-kc-hurtownie-inspirion-importer.php:113-118 | the four counters add up to the total |
| Inspirion.InspirionRunGrows | includes/class-kc-hurtownie-inspirion-importer.php:248-275 | a run never removes a product |
| Inspirion.InspirionRunCovers | includes/class-kc-hurtownie-inspirion-importer.php:258-274 | after a run every complete record's SKU is in the catalog, unless it was new and its save failed |
| Inspirion.InspirionRunImportsNew | includes/class-kc-hurtownie-inspirion-importer.php:267-273 | a record counted as imported is complete and its SKU was not in the catalog when the run started |
| Inspirion.InspirionRunAgain | includes/class-kc-hurtownie-inspirion-importer.php:258-274 | running the same records again imports only records whose first save failed, and nothing when no save fails |
| Inspirion.InspirionRunNoImports | includes/class-kc-hurtownie-inspirion-importer.php:258-274 | when every complete record's SKU exists, a run imports nothing |
| Inspirion.InspirionRunKeepsExisting | includes/class-kc-hurtownie-inspirion-importer.php:262-265 | with updating off an existing product is never changed |
| Inspirion.CategoryIds | includes/class-kc-hurtownie-inspirion-importer.php:412-425 | each name is found or created at the top level; the ids of the names that succeed are kept in order |
| Inspirion.CategoryIdsNamed | includes/class-kc-hurtownie-inspirion-importer.php:414-424 | every id collected is a term named by one of the names |
| Inspirion.CategoryIdsCreatable | includes/class-kc-hurtownie-inspirion-importer.php:414-424 | every term the loop created has a name that is neither empty nor refused |
| Inspirion.CategoryIdsCover | includes/class-kc-hurtownie-inspirion-importer.php:414-424 | every name that is neither empty nor refused gets an id |
| Inspirion.CategoryIdsStable | includes/class-kc-hurtownie-inspirion-importer.php:414-424 | on an extension of the terms made of creatable names the loop gives the same ids |
| Inspirion.CategoryIdsAgain | includes/class-kc-hurtownie-inspirion-importer.php:410-430 | with the ids read as ints, assigning the categories again creates no term and collects the same ids |
| Inspirion.CategoryRefs | includes/class-kc-hurtownie-inspirion-importer.php:412-425 | as written: the same terms as `CategoryIds` and one entry per collected id |
| Inspirion.CategoryRefsOne | includes/class-kc-hurtownie-inspirion-importer.php:414-424 | for one name, the entry is the digits of the id of a found term, the int id of a created one, or nothing when the insert is refused |
| Inspirion.AsWrittenAssignNew | includes/class-kc-hurtownie-inspirion-importer.php:415-428 | as written, a name no category has is created and the product gets exactly its id |
| Inspirion.AsWrittenAssignFound | includes/class-kc-hurtownie-inspirion-importer.php:415-428 | as written, a name found as category k gives the product a new term named by the digits of k instead |
| Inspirion.AsWrittenAssignAgain | includes/class-kc-hurtownie-inspirion-importer.php:415-428 | as written, when the category was created by the previous run, the product is given a new term named by its id instead |
| Inspirion.AsWrittenAssignRerun | includes/class-kc-hurtownie-inspirion-importer.php:410-430 | as written, assigning a new category twice leaves the product in a term named by the category's id, not in the category |
| Inspirion.LatestZip | includes/class-kc-hurtownie-inspirion-importer.php:600-609 | the archive chosen is a listed `.zip` entry, or none when no entry is one |
| Inspirion.LatestZipIsLast | includes/class-kc-hurtownie-inspirion-importer.php:600-609 | no entry after the chosen archive is an archive |
| Inspirion.InspirionImporter.constructor | includes/class-kc-hurtownie-inspirion-importer.php:82-85 | zero counters and the options from the settings |
| Inspirion.InspirionImporter.Apply | includes/class-kc-hurtownie-inspirion-importer.php:310-329 | the setter sequence yields `Revised` |
| Inspirion.InspirionImporter.AssignCategories | includes/class-kc-hurtownie-inspirion-importer.php:410-430 | with the ids handed on as ints, the collected ids replace the product's categories, when there are any |
| Inspirion.InspirionImporter.CollectNext | includes/class-kc-hurtownie-inspirion-importer.php:414-424 | one name found or created; the terms and ids are those of `CategoryIds` over one more name |
| Inspirion.InspirionImporter.Place | includes/class-kc-hurtownie-inspirion-importer.php:335-342 | categories when the record has some; images when it has some and images are enabled |
| Inspirion.InspirionImporter.ImportProduct | includes/class-kc-hurtownie-inspirion-importer.php:248-401 | the catalog and outcome are `InspirionStep`'s; the site is placed only when the record reaches a create whose save succeeds or a loadable update |
| Inspirion.InspirionImporter.Import | includes/class-kc-hurtownie-inspirion-importer.php:93-138 | counters reset; a fetch yielding no records fails and changes nothing; otherwise the catalog and outcomes are `InspirionRun`'s and the total is the record count |
| Inspirion.InspirionImporter.ImportEach | includes/class-kc-hurtownie-inspirion-importer.php:116-118 | the loop's catalog and outcomes are `InspirionRun`'s |
| Inspirion.InspirionImporter.ImportNext | includes/class-kc-hurtownie-inspirion-importer.php:116-118 | one record imported and counted; catalog and outcomes are `InspirionRun`'s over one more record |
| Macma.MatchIndex | includes/class-kc-hurtownie-macma-importer.php:425-430 | 1 + the index of the first row whose key holds the value, or 0 |
| Macma.FindMatch | includes/class-kc-hurtownie-macma-importer.php:436-441 | the search that stops at the first match returns `MatchIndex` |
| Macma.FirstMatchFound | includes/class-kc-hurtownie-macma-importer.php:425-430 | the first matching row is the one `MatchIndex` finds |
| Macma.Join | includes/class-kc-hurtownie-macma-importer.php:423-442 | the field of the first row whose `code` is the SKU, "0" when that row lacks it or no row matches |
| Macma.CategoryName | includes/class-kc-hurtownie-macma-importer.php:445-453 | the name of the first category with the product's category id, or "" |
| Macma.Urls | includes/class-kc-hurtownie-macma-importer.php:456-463 | the `url` of each image object that has one, in order |
| Macma.UrlsExact | includes/class-kc-hurtownie-macma-importer.php:456-463 | a URL is collected exactly when some image object carries it |
| Macma.NewProduct | includes/class-kc-hurtownie-macma-importer.php:498-544 | a new product has the prepared price, a managed stock in stock when positive, and the supplier id |
| Macma.RevisedProduct | includes/class-kc-hurtownie-macma-importer.php:560-602 | an update sets the same fields on the loaded product and keeps its other meta |
| Macma.MacmaStep | includes/class-kc-hurtownie-macma-importer.php:405-481 | an error exactly when id, name or code is missing; skipped when the SKU exists and updating is off; updated when it exists and updating is on, or error-and-updated (`FailedAndUpdated`) when it cannot be loaded; otherwise imported |
| Macma.MacmaRun | includes/class-kc-hurtownie-macma-importer.php:154-163 | one outcome per record reached |
| Macma.MacmaRunDouble | includes/class-kc-hurtownie-macma-importer.php:468-472 | a record counts twice only when it exists, updating is on and it cannot be loaded |
| Macma.MacmaRunEach | includes/class-kc-hurtownie-macma-importer.php:151-163 | the i-th outcome of a run is the step of the i-th record on the catalog the earlier records left |
| Macma.MacmaRunPrefix | includes/class-kc-hurtownie-macma-importer.php:151-163 | the outcomes of a run over a prefix are the first outcomes of the whole run |
| Macma.MacmaRunCounts | includes/class-kc-hurtownie-macma-importer.php:148-163 | the counters add up to the records plus those counted twice; with updating off nothing counts twice |
| Macma.MacmaRunGrows | includes/class-kc-hurtownie-macma-importer.php:405-481 | a run never removes a product |
| Macma.MacmaRunCovers | includes/class-kc-hurtownie-macma-importer.php:468-480 | after a run every complete record's SKU is in the catalog |
| Macma.MacmaRunAgain | includes/class-kc-hurtownie-macma-importer.php:468-480 | running the same records again imports nothing |
| Macma.MacmaRunNoImports | includes/class-kc-hurtownie-macma-importer.php:468-480 | when every complete record's SKU exists, a run imports nothing |
| Macma.ImportCategory | includes/class-kc-hurtownie-macma-importer.php:349-394 | a mapped category returns its term; otherwise its parent is looked up or imported first, the term is inserted and mapped; a refused insert returns 0 |
| Macma.ParentOf | includes/class-kc-hurtownie-macma-importer.php:358-378 | the parent term: 0 for no parent id, the mapped term of a known parent, else the first listed category with that id imported on the spot |
| Macma.ImportCategoryKeeps | includes/class-kc-hurtownie-macma-importer.php:349-394 | importing a category loses no mapping and every mapping names an existing term |
| Macma.ParentOfKeeps | includes/class-kc-hurtownie-macma-importer.php:358-378 | finding or importing the parent loses no mapping and every mapping names an existing term |
| Macma.ParentOfMapped | includes/class-kc-hurtownie-macma-importer.php:358-378 | the parent term is 0 without a parent id, the mapped term of a mapped parent, and otherwise a term the parent id is then mapped to |
| Macma.ImportCategoryMaps | includes/class-kc-hurtownie-macma-importer.php:391-393 | a category whose import returns a term is mapped to it |
| Macma.ImportCategoryParentFirst | includes/class-kc-hurtownie-macma-importer.php:358-383 | a new term has the name asked for and sits at the top or under the parent's earlier term |
| Macma.ImportCategoryAgain | includes/class-kc-hurtownie-macma-importer.php:352-355 | a category imported once is found through its mapping and nothing is inserted again |
| Macma.ImportCategoryList | includes/class-kc-hurtownie-macma-importer.php:325-338 | listed categories with an id and a name are imported in turn; the terms only grow |
| Macma.ImportCategoryListKeeps | includes/class-kc-hurtownie-macma-importer.php:325-338 | importing the list loses no mapping |
| Macma.ImportCategoryListMaps | includes/class-kc-hurtownie-macma-importer.php:331-337 | every listed category with an id and a name is mapped unless its own insert was refused |
| Macma.DefaultMappingDistinct | includes/class-kc-hurtownie-attributes.php:168-175 | the default mapping has one entry per attribute slug |
| Macma.MacmaImporter.constructor | includes/class-kc-hurtownie-macma-importer.php:91-98 | zero counters and the options from the settings |
| Macma.MacmaImporter.ImportCategoryInto | includes/class-kc-hurtownie-macma-importer.php:349-394 | the site's terms and meta are those of `ImportCategory` |
| Macma.MacmaImporter.ParentInto | includes/class-kc-hurtownie-macma-importer.php:358-378 | the site's terms and meta are those of `ParentOf` |
| Macma.MacmaImporter.ImportCategories | includes/class-kc-hurtownie-macma-importer.php:325-338 | the site's terms and meta are those of `ImportCategoryList` |
| Macma.MacmaImporter.ImportListed | includes/class-kc-hurtownie-macma-importer.php:331-337 | one listed category imported when it has an id and a name; the state is `ImportCategoryList`'s over one more category |
| Macma.MacmaImporter.SetCategory | includes/class-kc-hurtownie-macma-importer.php:526-531 | the mapped category term replaces the product's categories |
| Macma.MacmaImporter.AddImages | includes/class-kc-hurtownie-macma-importer.php:534-536 | the images are imported when there are some and images are enabled |
| Macma.MacmaImporter.AddAttributes | includes/class-kc-hurtownie-macma-importer.php:539-541 | the mapped attributes are attached when there are any |
| Macma.MacmaImporter.PlaceCategoryAndImages | includes/class-kc-hurtownie-macma-importer.php:526-536 | the mapped category replaces the product's categories and the images are imported as above |
| Macma.MacmaImporter.Place | includes/class-kc-hurtownie-macma-importer.php:526-541 | the category, images and attributes are placed as above |
| Macma.MacmaImporter.CollectUrls | includes/class-kc-hurtownie-macma-importer.php:456-463 | the image loop returns `Urls` |
| Macma.MacmaImporter.PrepareProduct | includes/class-kc-hurtownie-macma-importer.php:415-466 | the prepared values are the joins, URLs and mapped attributes |
| Macma.MacmaImporter.ImportProduct | includes/class-kc-hurtownie-macma-importer.php:405-602 | the catalog and outcome are `MacmaStep`'s; the site is placed only for an import or an update |
| Macma.MacmaImporter.Import | includes/class-kc-hurtownie-macma-importer.php:106-183 | attributes first; a products document yielding nothing fails; otherwise the categories are imported when enabled, the total is the number of records and the outcomes grow by `MacmaRun` over the records reached under the limit |
| Macma.MacmaImporter.ImportFetched | includes/class-kc-hurtownie-macma-importer.php:122-163 | missing stocks, categories or prices count as empty; categories are imported when enabled; then `MacmaRun` |
| Macma.MacmaImporter.ImportCounted | includes/class-kc-hurtownie-macma-importer.php:161-162 | one record imported and its outcome counted |
| Macma.MacmaImporter.ImportEach | includes/class-kc-hurtownie-macma-importer.php:151-163 | the loop stops at the limit; catalog and outcomes are `MacmaRun`'s over the records reached |
| Macma.MacmaImporter.ImportNext | includes/class-kc-hurtownie-macma-importer.php:151-163 | one record imported and counted; catalog and outcomes are `MacmaRun`'s over one more record |
| Macma.Rows | includes/class-kc-hurtownie-macma-importer.php:122-140 | a failed fetch stands for no rows |
| Malfini.Sent | includes/class-kc-hurtownie-malfini-importer.php:268-290 | sending a request logs it and consumes the next reply |
| Malfini.LoginResult | includes/class-kc-hurtownie-malfini-importer.php:255-323 | without a username or password nothing is sent and it fails; otherwise one login is sent and it succeeds exactly when the reply grants a token, which is stored with `expires_at = now + expires_in` |
| Malfini.RefreshResult | includes/class-kc-hurtownie-malfini-importer.php:332-385 | without a refresh token nothing is sent and it fails; otherwise one refresh is sent and a granting reply replaces both tokens and the transient |
| Malfini.AuthResult | includes/class-kc-hurtownie-malfini-importer.php:228-324 | an unexpired live token is used as it is; a success leaves tokens held by the live transient |
| Malfini.AuthenticateRequests | includes/class-kc-hurtownie-malfini-importer.php:228-324 | nothing is sent for an unexpired token; a refresh only for an expired live token with a refresh token; a login only after no refresh succeeded and with both credentials; the refresh before the login |
| Malfini.AuthenticateSucceeds | includes/class-kc-hurtownie-malfini-importer.php:228-324 | authentication succeeds exactly when the token is unexpired, a refresh is granted or a login is |
| Malfini.AuthenticateAgain | includes/class-kc-hurtownie-malfini-importer.php:233-244 | authenticating again at the same moment after a success sends nothing and changes nothing |
| Malfini.WithLanguage | includes/class-kc-hurtownie-malfini-importer.php:555-557 | the URL gains `language=pl` unless it already has a language parameter |
| Malfini.WithLanguageIdempotent | includes/class-kc-hurtownie-malfini-importer.php:555-557 | adding the language parameter twice is adding it once |
| Malfini.AcceptResult | includes/class-kc-hurtownie-malfini-importer.php:620-651 | anything but a 200 with non-empty data is `false`; good data is cached for an hour |
| Malfini.RequestResult | includes/class-kc-hurtownie-malfini-importer.php:563-651 | a cache hit answers without a request; otherwise one GET and, on a 401, one refresh and one retried GET |
| Malfini.ApiResult | includes/class-kc-hurtownie-malfini-importer.php:537-663 | without an access token it authenticates first; failing that it returns `false` |
| Malfini.RequestRetriesOnce | includes/class-kc-hurtownie-malfini-importer.php:593-617 | a call sends nothing on a cache hit and otherwise at most GET, refresh, GET; the refresh and the retry only after a 401 |
| Malfini.RequestCaches | includes/class-kc-hurtownie-malfini-importer.php:651 | data returned is left in the cache for the endpoint, fresh for an hour |
| Malfini.ApiDataAgain | includes/class-kc-hurtownie-malfini-importer.php:563-569 | asking for the same endpoint again at the same moment is answered from the cache with no request |
| Malfini.RequestData | includes/class-kc-hurtownie-malfini-importer.php:620-646 | data returned is what a cache entry or a 200 reply held, and never empty |
| Malfini.MalfiniStep | includes/class-kc-hurtownie-malfini-importer.php:686-717 | an error exactly when id or name is missing; updated exactly when complete and the code is a known SKU; otherwise imported |
| Malfini.MalfiniRun | includes/class-kc-hurtownie-malfini-importer.php:179-197 | one outcome per record |
| Malfini.MalfiniRunCounts | includes/class-kc-hurtownie-malfini-importer.php:175-197 | imported + updated + errors equals the records; errors are exactly the incomplete records; nothing skipped |
| Malfini.MalfiniRunEach | includes/class-kc-hurtownie-malfini-importer.php:179-197 | each record's outcome depends on that record and the catalog only |
| Malfini.MalfiniImporter.constructor | includes/class-kc-hurtownie-malfini-importer.php:109-116 | the configuration and options from the settings, zero counters, the given transients and server |
| Malfini.MalfiniImporter.Send | includes/class-kc-hurtownie-malfini-importer.php:268-290 | the request is logged and the next reply consumed |
| Malfini.MalfiniImporter.Store | includes/class-kc-hurtownie-malfini-importer.php:303-320 | both token fields and the transient are set from the grant |
| Malfini.MalfiniImporter.Login | includes/class-kc-hurtownie-malfini-importer.php:255-323 | the session and result are `LoginResult`'s |
| Malfini.MalfiniImporter.RefreshToken | includes/class-kc-hurtownie-malfini-importer.php:332-385 | the session and result are `RefreshResult`'s |
| Malfini.MalfiniImporter.Authenticate | includes/class-kc-hurtownie-malfini-importer.php:228-324 | the session and result are `AuthResult`'s |
| Malfini.MalfiniImporter.Request | includes/class-kc-hurtownie-malfini-importer.php:559-651 | the session and data are `RequestResult`'s |
| Malfini.MalfiniImporter.GetApiData | includes/class-kc-hurtownie-malfini-importer.php:537-663 | the session and data are `ApiResult`'s |
| Malfini.MalfiniImporter.Import | includes/class-kc-hurtownie-malfini-importer.php:124-220 | attributes first; a failed authentication or missing products fails with its message; otherwise the outcomes grow by `MalfiniRun` over the records reached under the limit; counters are not reset |
| Malfini.MalfiniImporter.ImportProduct | includes/class-kc-hurtownie-malfini-importer.php:686-717 | the outcome is `MalfiniStep`'s; the catalog is only read |
| Malfini.MalfiniImporter.ImportCounted | includes/class-kc-hurtownie-malfini-importer.php:185-195 | one record classified and its counter moved |
| Malfini.MalfiniImporter.ImportEach | includes/class-kc-hurtownie-malfini-importer.php:179-197 | the loop stops at the limit; the outcomes grow by `MalfiniRun` over the records reached |
| Admin.StripScheme | admin/class-kc-hurtownie-admin.php:205 | one leading `http://` or `https://` removed; a value without one is unchanged |
| Admin.NormalizePath | admin/class-kc-hurtownie-admin.php:209-215 | a path trimmed of slashes and wrapped in one slash each side unless PHP-empty |
| Admin.NormalizePathShape | admin/class-kc-hurtownie-admin.php:209-215 | the result is '', '0', or a non-empty path with exactly one slash at each end |
| Admin.NormalizePathIdempotent | admin/class-kc-hurtownie-admin.php:209-215 | normalising twice is normalising once |
| Admin.WithScheme | admin/class-kc-hurtownie-admin.php:218-225 | `http://` is prefixed exactly when the value has no scheme |
| Admin.SanitizeSettings | admin/class-kc-hurtownie-admin.php:195-235 | the same keys as the input; FTP hosts lose a scheme, FTP paths are normalised, API URLs gain a scheme, everything else goes through the text filter |
| Admin.SanitizeSettingsIdempotent | admin/class-kc-hurtownie-admin.php:195-235 | sanitising saved settings again changes nothing, for an idempotent text filter and hosts without a double scheme |
| Admin.HostIdempotent | admin/class-kc-hurtownie-admin.php:205 | stripping the scheme twice is stripping it once unless the host began with two schemes |
| Admin.Dispatch | admin/class-kc-hurtownie-admin.php:385-429 | a wholesaler not enabled is refused; `hurtownia1` is not implemented; 2..5 run AXPOL, PAR, Inspirion and Macma; anything else is unknown |
| Admin.CronImportProducts | admin/class-kc-hurtownie-admin.php:602-649 | without settings nothing is written; each enabled wholesaler whose import succeeds gets its time; every other entry is kept |
| Admin.RecordRuns | admin/class-kc-hurtownie-admin.php:611-644 | over distinct wholesaler ids, an id whose import succeeds gets its time; no other entry changes |
| Admin.CronSkipsFirst | admin/class-kc-hurtownie-admin.php:612-617 | `hurtownia1` never gets a timestamp from the scheduled import |
| Admin.GetOrCreateCategory | admin/class-kc-hurtownie-admin.php:458-481 | the first product category with the name, else a new one under the parent, else 0 |
| Admin.ImagePath | admin/class-kc-hurtownie-admin.php:364 | the images directory without trailing slashes, one slash, then the image path |
| Admin.ImagePathSlashes | admin/class-kc-hurtownie-admin.php:364 | trailing slashes on the images directory make no difference |
| Activator.KeysOf | includes/class-kc-hurtownie-activator.php:41-79 | the keys of the defaults are exactly the keys listed |
| Activator.MergeSpec | includes/class-kc-hurtownie-activator.php:82-86 | every default key becomes present, no key is removed, an existing value is never overwritten, a missing one gets its first default |
| Activator.MergeLoop | includes/class-kc-hurtownie-activator.php:82-86 | the loop leaves exactly the settings `Merge` describes |
| Activator.MergeIdempotent | includes/class-kc-hurtownie-activator.php:82-86 | merging the defaults twice is merging them once |
| Activator.CreatedHasEach | includes/class-kc-hurtownie-activator.php:105-131 | each wholesaler gets its directory and `/images` under it, at the stored path or the default |
| Activator.DirectoriesCreated | includes/class-kc-hurtownie-activator.php:96-135 | all five wholesalers' directories and image directories are created |
| Activator.Installation.constructor | includes/class-kc-hurtownie-activator.php:33-39 | the option and the directories as given |
| Activator.Installation.CreateDirectories | includes/class-kc-hurtownie-activator.php:96-135 | the root and the wholesalers' directories are created and missing local paths recorded in the settings |
| Activator.Installation.AddDefaults | includes/class-kc-hurtownie-activator.php:39-88 | the stored settings become `Merge` of the old ones with the defaults |
| Activator.Installation.CreateEach | includes/class-kc-hurtownie-activator.php:117-131 | the loop records exactly the missing local paths (`Merge`) and adds each wholesaler's directory and `/images` (`Created`) |
| Activator.Installation.Activate | includes/class-kc-hurtownie-activator.php:33-89 | the settings become `Activated` of the old ones and the directories are created |
| Activator.ActivatedSettings | includes/class-kc-hurtownie-activator.php:33-89 | after activation every default and local-path key is present, set values unchanged, missing ones at their defaults |
| Activator.ActivateAgain | includes/class-kc-hurtownie-activator.php:33-89 | activating twice is activating once |

## Left out

- Transport: FTP sessions, HTTP requests, ZIP extraction and file writes are not modelled. Their outcomes are parameters.
- Decoding XML and JSON (SimpleXML, `xml_to_array`, `json_decode`) is not modelled. A document carries the records its decoding yields.
- Logging (`error_log`) and the debug files Malfini writes are left out: they change nothing the model observes.
- WordPress failures are modelled as sets rather than as control flow: `Catalog.faulty` holds the SKUs whose save fails (for AXPOL, also a save that throws, which its per-record handler catches), `Catalog.broken` the products that do not load, and refused terms and attributes the inserts WordPress rejects. An exception that ends a PAR, Inspirion or Macma run is not modelled.
- The WooCommerce product fields that are constants (status, visibility, backorders, reviews) are not modelled.
- Products are keyed by SKU. WordPress post ids and `_hurtownia*_product_id` meta are not modelled.
- PAR's category fetch and `import_categories` are left out: the import never calls `import_categories`, and it uses the categories document only as an unused argument.
- PAR, AXPOL and Inspirion: the unused helpers `get_product_images`, `download_*`, `parse_xml_file` and `test_connection` are left out, except for one part of Inspirion's `download_and_extract_files`. Its choice of the archive to fetch from the FTP listing is modelled (`Inspirion.LatestZip`). `import()` never calls `download_and_extract_files`, and its transfer and extraction are not modelled.
- Macma, `Macma.MacmaImporter.ImportProduct`: a save that throws would abort the whole run, since there is no per-record handler. The model takes Macma's saves to succeed.
- Macma, `Macma.ImportCategory`: a `fuel` bound limits the depth of parents imported on the way. The import passes the number of listed categories as fuel, which is enough for any acyclic parent chain. A cyclic chain, on which the PHP recursion never ends, stops at the bound.
- Macma: `import_category` re-reads the categories document through `get_categories_data`. The model passes the document `import` already read, which is the same local copy.
- Malfini: `import_categories` has an empty body, and `create_product` and `update_product` are stubs that write nothing. They are modelled as doing nothing.
- Malfini: the test-data mode (`get_test_data` and its siblings) is left out. `get_product_images` and `get_product_variants` are unused and left out too.
- Malfini: a response transient is keyed by md5 of the endpoint. The model keys it by the endpoint itself.
- Malfini: `time()` is one `now` per import. Transient expiry is compared against it.
- Malfini.MalfiniImporter.Import: the stocks and categories are fetched and then unused. The model sends their requests but does not pass the data on.
- Admin: the connection tests, the AJAX handler, the admin pages, `fetch_products_data`, `fetch_product_image` (beyond its path join), `upload_image_to_media_library` and `create_attribute` are left out. They are UI or transport.
- Admin.SanitizeSettings: `sanitize_text_field` is a parameter `text`. Its HTML and whitespace rules are not modelled.
- Admin.CronImportProducts: each importer's success is a parameter `ran`. The import times are a parameter `times`.
- Activator: `wp_mkdir_p` is taken to succeed. The directories are a set of paths.
- Inspirion.InspirionImporter.ImportProduct: when a new product's `save()` returns 0, the PHP code still runs `assign_categories` for post 0, so it may create category terms. (`import_product_images` returns at once, because `wc_get_product(0)` finds no product.) The model leaves the site unchanged in that case. A save that throws ends the run, which is not modelled.
- Php.IntVal: only the plain forms are modelled: leading white space, an optional sign, and then digits. Since PHP 7.1 `intval` also reads a numeric string with an exponent, so `intval("1e3")` is 1000, while the model reads 1. Overflow to `PHP_INT_MAX` is not modelled either.
- Records.OptionsOf: PHP compares `import_limit` loosely (`$s > 0`, then `$count >= $s`). The model takes the limit as `IntVal` of the setting, which agrees for plain integer strings. A fractional or exponent setting differs: "0.5" limits PHP to 1 record, but the model reads it as no limit. "2.5" gives PHP 3 records and the model 2.
- Shop.WithStock: the quantity and the in-stock test use `IntVal` of the string. The code passes the raw string to `set_stock_quantity`, which WooCommerce converts with `intval`, and it tests `$q > 0` loosely. These agree only for plain integer strings: "0.5" is in stock in PHP but out of stock in the model, and "1e3" is stored as 1000 in PHP but as 1 in the model.
- Par.Stocked: built on `Shop.WithStock`, so only plain integer stock strings are modelled faithfully (see `Shop.WithStock`).
- Inspirion.Revised: built on `Shop.WithStock`, so only plain integer `stock_quantity` strings are modelled faithfully (see `Shop.WithStock`).
- Macma.NewProduct: built on `Shop.WithStock`, so only plain integer stock strings are modelled faithfully (see `Shop.WithStock`).
- Macma.RevisedProduct: built on `Shop.WithStock`, so only plain integer stock strings are modelled faithfully (see `Shop.WithStock`).
- Shop.FindTerm, Attributes.AttachOne and Media.ImportImage compare names exactly, and so do the members built on them (`Axpol.Categories`, `Inspirion.CategoryIds`, `Admin.GetOrCreateCategory`, `Media.ImportAll`). WordPress compares differently. `term_exists` first looks up the `sanitize_title` slug of the name. `get_term_by('name')` and the attachment `LIKE` query compare case-insensitively under WordPress's default collation. So with a category "Kubki" present, a record naming "KUBKI" reuses it in WordPress but adds a second term in the model.
- Axpol.CategoriesChoice: stated for `Categories`, which reads the handed-on id as an int. As written, a main or sub category that `term_exists` finds is handed on as a string of digits. WordPress then gives the product a term named by that number (see Findings).
- Axpol.CategoriesAgain: stated for `Categories`, which reads the handed-on id as an int. As written, the second placement finds main and gives the product a term named by main's id (`Axpol.AsWrittenPlaceRerun`).
- Axpol.AxpolImporter.AddCategories: runs the corrected placement, which hands the found id on as an int. The code as written is `Axpol.PlaceAsWritten` (see Findings).
- Inspirion.CategoryIdsAgain: stated for `CategoryIds`, whose ids are read as ints. As written, every id of a found category is handed on as a string of digits, and WordPress gives the product a term named by it (`Inspirion.AsWrittenAssignRerun`).
- Inspirion.InspirionImporter.AssignCategories: runs the corrected loop, which hands every id on as an int. The code as written is `Inspirion.AssignAsWritten` (see Findings).
- Integers are unbounded. PHP's integer width and float prices do not matter to the properties stated, and prices are kept as strings.

## Findings

| source | as written | input that shows it | evidently intended | confidence | as-written member | corrected member |
|---|---|---|---|---|---|---|
| includes/class-kc-hurtownie-axpol-importer.php:104-120 | `import()` hands the array built by `get_products_data` (`xml_to_array`) to `parse_xml_data`, which calls `simplexml_load_string` on it. The load fails. On PHP 7 the run counts one error and returns "Nie udało się przetworzyć danych XML." On PHP 8 `simplexml_load_string` throws a `TypeError`, which `catch (Exception $e)` does not catch, so the run dies. Either way nothing is imported. | any `products.xml` with at least one `Row` | the loaded rows are turned into product records and imported | high (not executed) | Axpol.AsWrittenNeverImports | Axpol.CorrectedIsParse |
| includes/class-kc-hurtownie-axpol-importer.php:540-569 | `term_exists` returns the id of a term it finds as a string, and `add_product_categories` hands that string to `wp_set_object_terms`, which reads a string as a term name. Only `wp_insert_term` returns an int id. | once the rows reach `add_product_categories` (see the row above): a product placed under a new main category "Kubki", which is created as term 12, and then placed again: the second time "Kubki" is found, and the product is also given a new category named "12" | the found id is read as an id (`(int) $main_term['term_id']`), so the product stays in "Kubki" only | high (not executed) | Axpol.AsWrittenPlaceRerun | Axpol.CategoriesAgain |
| includes/class-kc-hurtownie-inspirion-importer.php:410-430 | `assign_categories` collects `$term['term_id']`, a string for a category `term_exists` finds and an int for one `wp_insert_term` creates, and passes the list to `wp_set_object_terms`, which reads strings as term names | a product with category "Kubki", which the first import creates as term 12: on the next import "Kubki" is found, and the product's categories are replaced by a new category named "12" | every collected id is read as an id (`(int) $term['term_id']`), so a re-import keeps the product in "Kubki" | high (not executed) | Inspirion.AsWrittenAssignRerun | Inspirion.CategoryIdsAgain |
