# Multiwavelength Cosmic Analyser — a Dafny model of its page script and server rules

The application is made of two parts:

- a browser page (`cosmic_app/static/script.js`). It shows an image in a zoom-and-pan viewer and plots either Wien's displacement curve or a normalised black-body intensity curve for a chosen temperature. It also uploads an image for processing and renders one card per cluster that comes back.
- a Flask back end (`cosmic_app/app.py`). It answers the two chart endpoints. It also resizes an uploaded image to fit within 512 × 512, groups its pixels into best_k clusters, and labels each cluster by its average optical, infrared and X-ray values.

The model has four modules:

- `Common` (`common.dfy`): an option type, min and max, and the decimal spelling of integers.
- `App` (`app.dfy`): the server's decision rules as functions, plus two methods for its two loops. The loops are the silhouette search for best_k and the filling of `cluster_info`.
- `Script` (`script.dfy`): the page.
  - Its module-level variables, and the page elements they drive, are the fields of one class, `Page`. Each handler is a method whose frame names only the fields it may write.
  - `Page.Valid()` is the invariant every handler keeps:
    - the zoom stays within [0.5, 4];
    - the image's CSS transform shows the current pan and zoom;
    - every chart created so far has been destroyed except the current one, so at most one chart instance is alive.
  - The viewport rules are pure transitions on a `Viewport` record. The methods are tied to them with `View() == F(old(View()))`, and the lemmas about series of gestures are stated on the transitions.
  - Chart data, card order and the file-name label are pure functions.
  - A network call is split in two: the method that issues it returns the request it sends, and a second method takes the fetch's outcome (success with the response's members, or failure) and applies the continuation.
- `Exchange` (`exchange.dfy`): lemmas that join the two sides:
  - the temperature the server ends up using for each state of the temperature field;
  - the highlighted Wien point against the curve the server sends;
  - that the optional cluster count reaches the server intact;
  - that the card numbers stay within best_k.

Numbers are mathematical reals and integers. A JavaScript number is `Finite(v)`, `NaN` or `Infinite(positive)`. KMeans and the silhouette score are parameters:

- KMeans's cluster labels are passed in as a sequence;
- the score is a function from k to `Option<real>`, where `None` stands for an exception.

The image file, the object URL and the timestamp of the cache-busting suffix are parameters too.

## Model

| member | source | states |
|---|---|---|
| `App.WienLambdaMax` | cosmic_app/app.py:25-28 | The peak wavelength times the temperature is b = 2.898e-3, and the peak is positive for a positive temperature. |
| `App.HotterPeaksShorter` | cosmic_app/app.py:27-28 | A strictly hotter body has a strictly shorter peak wavelength. |
| `App.FloatOf` | cosmic_app/app.py:36-40 | Among the JSON values the model represents, `float()` of the member fails (so the default is used) exactly for null, arrays/objects and unparseable strings. A missing key gives the default 5000. A JSON number passes through unchanged, a boolean gives 1.0 or 0.0, and a string gives what `float()` reads from it. |
| `App.TemperatureUsed` | cosmic_app/app.py:36-42 | The temperature used is always ≥ 100. A failed parse gives 5000. A parsed value ≥ 100 is kept, and one below 100 becomes 100. |
| `App.TemperatureUsedIsStable` | cosmic_app/app.py:42 | Sending back the temperature a response reports gives the same temperature again. |
| `App.Linspace` | cosmic_app/app.py:45 | The grid has the requested length, its first sample is the start and, with two or more samples, its last sample is the stop, which numpy writes in explicitly. |
| `App.LinspaceBounds` | cosmic_app/app.py:45 | Every sample lies between the start and the stop. |
| `App.WienLaw` | cosmic_app/app.py:34-53 | The /wien response reports the temperature the request's member leads to (`TemperatureUsed`, so ≥ 100), and lambda_max = b divided by it. It has 100 curve samples running from 1000 to 10000, all within [1000, 10000], with graph_lambda[i]·graph_T[i] = b at every i. |
| `App.IntensityCurve` | cosmic_app/app.py:55-65 | The /intensity response uses the temperature the request's member leads to (`TemperatureUsed`, so ≥ 100) and a 200-point grid running from 100 nm to 3000 nm. |
| `App.ParseClusters` | cosmic_app/app.py:90-97 | An absent or empty `clusters` field gives no user count. Any other value gives what `int()` makes of it. |
| `App.ParseInt` | cosmic_app/app.py:95 | `int()` succeeds exactly when the string, with its ASCII whitespace stripped, is an optional sign followed by digits that have single underscores between them and number at most 4300. A negative result comes from a leading minus sign. |
| `App.ParseIntOfDecimal` | cosmic_app/app.py:93-95 | `int()` reads the decimal spelling of every integer of at most 4300 digits back as that integer. |
| `App.ParseIntRejectsLongDecimal` | cosmic_app/app.py:94-97 | The decimal spelling of an integer of more than 4300 digits makes `int()` raise ValueError, so the field gives no user count. |
| `App.ParseClustersOfDecimal` | cosmic_app/app.py:91-97 | A field that carries a decimal integer yields exactly that user count when it has at most 4300 digits, and no user count otherwise. |
| `App.ParseIntExamples` | cosmic_app/app.py:93-97 | `int()` accepts surrounding whitespace, single underscores and a sign. It rejects letters and double underscores, which give None. |
| `App.ClampClusters` | cosmic_app/app.py:159-160 | The user's count is pulled into [2, 10]. It is unchanged when already inside, and the nearer bound otherwise. |
| `App.AutoBestK` | cosmic_app/app.py:141-158 | Without a score above −1 the result stays 3. Otherwise it is a scored k in 2..10 (with more pixels than k) that has the maximum score and a strictly greater score than every smaller k: the first maximum. |
| `App.SelectBestK` | cosmic_app/app.py:140-160 | best_k is always in [2, 10]. It is 3 below 50 pixels. From 50 pixels up it is the clamped user count when one was given, and the search result otherwise. |
| `App.Classify` | cosmic_app/app.py:181-203 | Each of the five labels is characterised on its own, by an if-and-only-if on the three averages that reproduces the ordered tests. |
| `App.Interpret` | cosmic_app/app.py:180-212 | A cluster's entry has the label from the ordered tests, that label's text (its 'label' member), description and icon, and it carries the three averages. |
| `App.Members` | cosmic_app/app.py:171-172 | A cluster has as many pixels as there are labels equal to its id (so it has one exactly when the id occurs among the labels), and they are drawn from the image. |
| `App.LabelledIndicesAreTheMask` | cosmic_app/app.py:171 | The positions `labels == id` selects are strictly increasing, and every index labelled id is among them (each one is labelled id). |
| `App.MembersAreMasked` | cosmic_app/app.py:171-172 | The cluster is the image's pixels taken at exactly those positions, in order, so each labelled pixel occurs once and the multiplicities that `np.mean` sees are the image's. |
| `App.MembersAreLabelled` | cosmic_app/app.py:171-172 | Every pixel labelled with the id is in the cluster, and every pixel of the cluster is some pixel labelled with the id. |
| `App.Mean` | cosmic_app/app.py:176-178 | A channel's mean times the cluster's size is the channel's sum over the cluster. |
| `App.MeanBelow` | cosmic_app/app.py:176-178 | A channel's mean over a non-empty cluster is below any bound that every member is below. |
| `App.DarkClusterIsDarkSpace` | cosmic_app/app.py:176-187 | A cluster whose every pixel is below 50 on all three channels is labelled Dark Space. |
| `App.BuildClusterInfo` | cosmic_app/app.py:168-212 | The keys of cluster_info are exactly the ids in [0, best_k) that have at least one pixel. Each value is the interpretation of that cluster's means. |
| `App.FitWithin` | cosmic_app/app.py:105-109 | Computed over the reals: both new sides lie in [1, 512], the longer side becomes exactly 512, and the shorter is max(1, ⌊512·short/long⌋). |
| `Script.ClampZoom` | cosmic_app/static/script.js:44 | The zoom is clamped to [0.5, 4]: unchanged inside, the nearer bound outside. |
| `Script.Recentred` | cosmic_app/static/script.js:61-63 | The view is zoom 1 and pan (0, 0), and the pan session and its anchor are kept. |
| `Script.Zoomed` | cosmic_app/static/script.js:44 | The zoom becomes the clamped product with the factor, so it is in [0.5, 4]. Nothing else changes. |
| `Script.PanStarted` | cosmic_app/static/script.js:77-82 | At or below zoom 1 nothing changes. Above it a session opens with anchor + pan = pointer. Zoom and pan are kept either way. |
| `Script.PanMoved` | cosmic_app/static/script.js:90-95 | Without a session nothing changes. During one, pan + anchor = pointer. Only the pan changes. |
| `Script.PanEnded` | cosmic_app/static/script.js:100 | The session is closed and nothing else changes. |
| `Script.RecentredIsIdentity` | cosmic_app/static/script.js:55-66 | Reset (and open) give zoom 1 and pan (0, 0) from any prior view. |
| `Script.ZoomStaysInRange` | cosmic_app/static/script.js:38-53 | Through any series of zoom commands the zoom stays in [0.5, 4] and the pan is untouched. |
| `Script.ZoomExamples` | cosmic_app/static/script.js:44 | From zoom 1, a factor of 10 gives exactly 4, and a further factor of 0.1 gives 0.5. |
| `Script.PanGate` | cosmic_app/static/script.js:76-87 | At or below zoom 1, starting a pan changes nothing. Above it, a session opens with anchor = pointer − pan, and zoom and pan are kept. |
| `Script.MovesWithoutSessionAreIgnored` | cosmic_app/static/script.js:89-97 | With no pan session open, no series of pointer moves changes the view. |
| `Script.PanFollowsAnchor` | cosmic_app/static/script.js:89-97 | During a session, after any series of moves the pan is the last pointer minus the anchor. Zoom, anchor and the session are kept. |
| `Script.DragShiftsPan` | cosmic_app/static/script.js:76-97 | A drag above zoom 1 shifts the pan by exactly the pointer's displacement from the press to the last move. |
| `Script.DragAtUnitZoomIsIgnored` | cosmic_app/static/script.js:76-97 | At or below zoom 1, and with no pan session already open, a drag leaves the view as it was. |
| `Script.SessionSurvivesRecentring` | cosmic_app/static/script.js:11-29 | Recentring (open or reset) keeps a pan session that is still open, and a move in it then pans at zoom 1, because only startPan checks the zoom. |
| `Script.PanEndedFacts` | cosmic_app/static/script.js:99-105 | Ending a pan always closes the session, is idempotent, and keeps zoom and pan. |
| `Script.DragExample` | cosmic_app/static/script.js:76-97 | At zoom 2, a drag from (100, 100) to (130, 120) gives a pan of (30, 20). |
| `Script.ModeNamed` | cosmic_app/static/script.js:364 | The mode is intensity exactly when the argument is "intensity". Anything else selects Wien. |
| `Script.FieldTemperature` | cosmic_app/static/script.js:143 | A blank field reads as 5000, a numeric one as its number, an overflowing one as ±Infinity, and an unreadable one as NaN. |
| `Script.RequestFor` | cosmic_app/static/script.js:141-180 | The request goes to /intensity exactly in intensity mode, and it carries the field's temperature. |
| `Script.WienCurve` | cosmic_app/static/script.js:195-199 | One point per received temperature, with x = T[i] and y = λ[i]·1e9. A missing wavelength gives NaN. |
| `Script.Highlight` | cosmic_app/static/script.js:193-205 | The point's x is the temperature T. For finite nonzero T, y·T = b·1e9. T = 0 gives +Infinity, an infinite T gives 0, and NaN gives NaN. |
| `Script.ChartFor` | cosmic_app/static/script.js:153-180 | The chart kind follows the request. A Wien chart has the highlight point of the request's temperature, and a guide line at that temperature exactly when it is finite. An intensity chart carries the request's temperature. A failed fetch draws with empty series. A received series is drawn as `WienCurve` of its two arrays, or plotted as received for intensity. |
| `Script.HighlightAt5000` | cosmic_app/static/script.js:189-205 | At 5000 K the highlighted point is (5000, 579.6). |
| `Script.DisplayedName` | cosmic_app/static/script.js:136 | The label is at most 30 characters. A name of 30 or fewer characters is shown whole. A longer one shows its first 27 characters followed by "...". |
| `Script.DisplayedNameFacts` | cosmic_app/static/script.js:136 | A shown name is shown as itself, and always begins with the original's first min(length, 27) characters. |
| `Script.InsertById` | cosmic_app/static/script.js:443-444 | Insertion into a list sorted by id keeps it sorted and adds exactly the one entry (as a multiset). |
| `Script.SortEntries` | cosmic_app/static/script.js:443-444 | The numeric sort of the keys is ascending by id and a permutation of the entries. |
| `Script.ColorIndex` | cosmic_app/static/script.js:447 | The palette index is min(id, 4), always a valid index into the five colours. |
| `Script.ClusterCards` | cosmic_app/static/script.js:443-468 | One card per entry, in non-decreasing order of the card number. |
| `Script.CardsMatchEntries` | cosmic_app/static/script.js:443-468 | Every entry's card is present and every card is some entry's card: none lost, none invented. |
| `Script.CardFields` | cosmic_app/static/script.js:445-458 | A card shows id + 1 and the palette colour min(id, 4). |
| `Script.CardOrderExample` | cosmic_app/static/script.js:443-444 | Keys "0", "2", "1" give the cards numbered 1, 2, 3 in that order. |
| `Script.ShownImage` | cosmic_app/static/script.js:412-420 | A present, non-empty URL replaces the image source with the URL followed by "?t=" and the timestamp. Otherwise the source is kept. |
| `Script.SliderAfter` | cosmic_app/static/script.js:422-428 | The slider keeps its value while the user has chosen a count. Otherwise a non-zero best_k becomes its value, and nothing else moves it. |
| `Script.Page.constructor` | cosmic_app/static/script.js:1-9 | The initial view is zoom 1 with no pan and no session, in Wien mode with no chart and no override. The invariant holds. |
| `Script.Page.UpdateImageTransform` | cosmic_app/static/script.js:68-74 | The image's transform becomes translate(panX, panY) scale(zoom). |
| `Script.Page.OpenImageModal` | cosmic_app/static/script.js:11-29 | An image without a source changes nothing. Otherwise the modal opens on that source at the identity view. |
| `Script.Page.CloseImageModal` | cosmic_app/static/script.js:31-36 | The modal is closed and the invariant is kept. |
| `Script.Page.ZoomImage` | cosmic_app/static/script.js:38-53 | The new view is the clamped product with the factor, and the transform follows it. |
| `Script.Page.ResetZoom` | cosmic_app/static/script.js:55-66 | The new view is the identity view, and the transform follows it. |
| `Script.Page.StartPan` | cosmic_app/static/script.js:76-87 | The new view is the pan-start transition: gated on zoom > 1, with anchor = pointer − pan. |
| `Script.Page.DoPan` | cosmic_app/static/script.js:89-97 | The new view is the pan-move transition: pan = pointer − anchor, only during a session. The transform follows it. |
| `Script.Page.EndPan` | cosmic_app/static/script.js:99-105 | The session is closed and nothing else in the view changes. |
| `Script.Page.GenerateGraph` | cosmic_app/static/script.js:141-165 | The request goes to /intensity exactly in intensity mode, with the field's temperature. The page is not changed. |
| `Script.Page.SetGraphMode` | cosmic_app/static/script.js:363-374 | The mode becomes intensity only for "intensity" and Wien otherwise, and exactly one refresh for the new mode is sent. |
| `Script.Page.ReplaceChart` | cosmic_app/static/script.js:229-233 | The previous chart, if any, is destroyed before the new one becomes the only live instance. |
| `Script.Page.ReceiveSeries` | cosmic_app/static/script.js:158-164 | Success or failure draws exactly one chart, the one `ChartFor` describes, and it replaces the previous one. |
| `Script.Page.PreviewUploadedImage` | cosmic_app/static/script.js:121-139 | No file resets the label to "Choose Image File" and removes the preview. A file shows its displayed name and its object URL. |
| `Script.Page.OnClusterInput` | cosmic_app/static/script.js:514-519 | Moving the slider sets the override flag and the value. No handler clears the flag. |
| `Script.Page.ProcessImage` | cosmic_app/static/script.js:376-408 | Without a file, there is no request and no change. With one, the three loading marks go on, the request carries the file and the mode, and it carries the cluster count exactly when the user chose one, as its decimal spelling. |
| `Script.Page.ReceiveProcessResult` | cosmic_app/static/script.js:409-498 | The loading marks are cleared either way. Failure removes both image sources. Success updates the images, the slider and the cards as the functions above say. |
| `Script.Page.ShowProcessed` | cosmic_app/static/script.js:412-478 | Present URLs replace the image sources. SliderAfter sets the slider. A cluster_info member rebuilds the cards and shows the analysis panel. |
| `Script.Page.ClearLoadingState` | cosmic_app/static/script.js:479-485 | The loading indicator, the overlay and the body's processing mark are all off. |
| `Script.ReselectWien` | cosmic_app/static/script.js:363-374 | Two Wien selections, each answered, create exactly two charts and leave one live Wien chart. |
| `Script.DragScenario` | cosmic_app/static/script.js:522-528 | Zoom ×2, then press at (100, 100), move to (130, 120) and release: the pan is (30, 20) and no session is open. |
| `Exchange.TemperatureJson` | cosmic_app/static/script.js:156 | A finite temperature is sent as that JSON number, and NaN or an infinity as null. |
| `Exchange.ServerTemperatureOfField` | cosmic_app/app.py:36-42 | The server uses 5000 for a blank field, max(100, v) for a field reading v, and 5000 for an overflowing or unreadable field (both are sent as null). |
| `Exchange.SameWienConstant` | cosmic_app/static/script.js:190 | The page's Wien constant equals the server's. |
| `Exchange.HighlightLiesOnServerCurve` | cosmic_app/static/script.js:190-205 | Every plotted point of a /wien response satisfies x·y = b·1e9, and so does the highlight point. At a sampled temperature, the highlight is that sample's point. |
| `Exchange.HighlightIsServerPeak` | cosmic_app/app.py:42-43 | For a field temperature ≥ 100 the highlight's wavelength is the server's lambda_max in nm. Below 100 the server clamps to 100. The highlight then lies strictly above the server's peak for a positive field, is a negative wavelength (below the peak) for a negative field, and is +Infinity for 0. |
| `Exchange.ServerReadsClusterChoice` | cosmic_app/static/script.js:401-403 | The server reads back exactly the slider's value when the user chose one and it has at most 4300 digits, and no count otherwise. A count it reads is then clamped into [2, 10]. |
| `Exchange.CardNumbersWithinBestK` | cosmic_app/static/script.js:455 | With the server's keys below best_k, every card number is in 1..best_k. |

## Left out

- The DOM, CSS classes, cursor styles, the `innerHTML` card markup, the `setTimeout` fade-in and the temperature/cluster value labels (`updateTemperatureValue`, `updateClusterValue`). These are presentation only; a card keeps only its fields.
- Every page element is taken to be present. The branches of script.js that return early when `getElementById` finds nothing are not modelled.
- `fetch`, `FormData`, JSON parsing and Flask routing. A fetch is an abstract outcome: success carrying the response's members, or failure.
- The order of overlapping in-flight requests. Each response is applied as a separate step, and the race between responses is not modelled.
- A response handler that throws part-way, which would make the `.catch` branch run too.
- Chart.js options, the dashed-line plugin's drawing and tooltip formatting. These belong to a foreign library, so only the guide line's x position is kept.
- `console.log`. It is output only.
- The Planck intensity values, `np.exp`, `nan_to_num` and their normalisation. These are floating-point numerics, so `IntensityCurve` keeps only the temperature and the wavelength grid.
- IEEE floating point. `np.float32` rounding of the grids, the rounding of the averages to one decimal, and NaN or infinity produced by `float()` of a string are not modelled, because numbers are reals.
- OpenCV (reading, resizing, blurring, colour maps, writing files), KMeans and `silhouette_score`. These are foreign libraries; the labels and the per-k scores are parameters.
- The per-pixel channel arithmetic. It is floating-point numerics; pixels carry their three channel values directly.
- Saving the upload, creating directories, the 400 responses for a missing or unreadable image, and the output filenames. These are I/O.
- `float()` of a JSON string. Its result is abstracted as the `asFloat` field of the parameter.
- `App.FloatOf`: takes a JSON number as the real it denotes. An integer literal beyond the double range makes `float()` raise OverflowError, which the handler does not catch (an HTTP 500), and a float literal beyond it reads as infinity; neither is modelled. The page never sends such a literal, since it sends only finite JavaScript numbers.
- `payload.get` on a truthy JSON body that is not an object, such as a non-empty array. It raises and gives an HTTP 500, which is not modelled. A falsy body becomes `{}` and is modelled, as an Absent member.
- Unicode whitespace and non-ASCII digits are not accepted, though Python's `int()` accepts them. The model takes only ASCII ones.
- The 4300-digit limit of `int()` is CPython's default. The model does not capture a limit changed through `sys.set_int_max_str_digits` or `PYTHONINTMAXSTRDIGITS`, or an older interpreter without the limit.
- `App.FitWithin`: computes over the reals, so its longer side is always exactly 512. In doubles, `width * (512 / width)` can round just below 512 and `int()` then truncates it to 511. A 49 × 30 image, for example, is resized to 511 × 313 by the source but to 512 × 313 by the model.
- `Script.DisplayedName`: counts characters, where JavaScript's `length` counts UTF-16 code units.
- The browser's sanitising of the range input and the string/number conversions of the slider value. The slider value is an integer and is sent as its decimal spelling.
- `URL.createObjectURL` and `new Date().getTime()`. They are nondeterministic, so they are parameters (`objectUrl`, `timestamp`).
- The cluster_info keys as the page receives them. The model takes them to be the canonical decimal keys the server writes; its entries carry the ids as naturals.
