# Hive's aggregate gateway, Bee's shared sizing and enrollment, verified

A Dafny model of the parts of Hive and Bee where state lives longest and failures cut in deepest, with
proofs about every run of it. `dafny verify dfyconfig.toml` checks everything.

**The gateway** (`Gateway.dfy`, with its state in `GatewayState.dfy`, the lemmas about single steps in
`GatewayLaws.dfy`, and what counts of everything shared in `Catalog.dfy`). One loop merges up to eight shared
sessions ("sources") into one virtual endpoint for one viewer. `Session` has the fields of the Go `session`,
grouped into a few records, and one method for each event: a frame of the viewer, a frame or failure of a
source, an opened stream, a tick. Every write to a source may fail, and a failed write drops the source and
publishes anew, from inside whatever was going on; the recursion ends because each level has fewer sources. A
ghost record keeps what was written to every source, in order (`past.written`), what the viewer was sent
(`past.answers`, `past.readies`), how the layout was handed around (`past.layout`), the screen that a viewer
who takes in every frame has (`past.viewer`) and the surface frame it was written last (`past.latest`), and,
in a chronicle of its own (`history`), every tick, opening and failure, every announced revision, every
transition and its acknowledgement with the reply, every frame that counts as rendering, the beginning of
every period of stable rendering, and every forgetting. Only the primitives that write (`Utter`, `Attempt`,
`Show`, `Tell`, `Write`) extend the first, and each event that the chronicle speaks of extends the second;
what may be in the chronicle, and after what, is `Admitted` in `GatewayState`.

**The codec** (`Wire`, `Grammar`, `Decoder`, `Surface`). Frame layouts are data (`Prog`) instead of closures;
`Decoder.Run` interprets them in place and is proved against the function `Parse`. `Wire.Spells` says which
bytes are which number, byte by byte.

**The retained screen and what the viewer sees** (`Slices`, `Screen`, `Painting`, `Retention`, `Forwarding`,
`Viewing`, `Endpoint`, `Popups`, `Blanks`, `CompleteSurface`). A screen is kept as slices of the source's own
bytes. What is proved of it is proved for any sound element layouts, and `Endpoint` applies it to those on the
wire. `Painting` tells by line and column what a patch does, `Blanks` what a blank frame shows. `Popups` says
exactly where the rewriter and retention part. `CompleteSurface` is the Go object, updated in place, proved
against the functions.

**Sizing** (`Sizing`, `SizingState`, `SizingLaws`, `SizingWire`). All viewers of one publication share one
reference-counted controller per pane. The environment acts between any two steps and in the middle of
acquisitions and releases: helpers end, other publications reclaim idle controllers and use slots, timers fire
arbitrarily late. What a handler does after it has let the publication's lock go is a step of its own (`due`
says what it has left to do, still holding its viewer's lock), so that other viewers, timers and the end of
the publication come in between in any order. A ghost log keeps acquisitions, releases, stops, every view that
was brought in line, answers of the terminal program and every write to it; and of every viewer what it
showed, which navigations it began, how they were answered, when they were gone through for those that are
over, and what it decided to keep before it released anything.

**Enrollment** (`Enrollment`). Two files, each with the contents that it may have after a crash; every
replacement succeeds, fails, or succeeds without being certain to last.

Time is a number that never decreases. What the program reads from outside (frames as decoded, answers of
the terminal program, whether a write succeeds, the JSON parser, the prefix of a source) comes in as a
parameter or a nondeterministic choice.

## Model

| member | source | states |
|---|---|---|
| Gateway.Session.ViewerSees | hive/internal/gateway/gateway.go:480-547 | Whenever what was rendered last is the active source's scene as it is now, the viewer, who took in every full frame and patch of the run, has exactly that scene under the viewer's boot, numbers and prefixed identifiers: what anyone would have who took in the scene in full |
| Gateway.Session.SceneIsShown | hive/internal/gateway/gateway.go:415-517 | Between events, if the viewer wants a surface and the active source's retained scene is the one that its snapshot announces, that scene was rendered last; with `ViewerSees`, it is what the viewer has |
| Gateway.Session.BlankIsShown | hive/internal/gateway/gateway.go:480-487 | Between events, if the viewer wants a surface and no source is active, the surface frame it was written last is the blank one of its size |
| Blanks.BlankShows | hive/internal/gateway/gateway.go:955-970 | Whoever takes that frame in, whatever they had before, has a screen of the size, every cell of it a plain space, without a cursor |
| Gateway.Session.TakeScene | hive/internal/gateway/gateway.go:619-647 | A scene or patch either fails its source and changes nothing, or advances that source's retained screen by exactly this frame and leaves a viewer of a current active source up to date, between events as calm as before; it counts as rendering exactly if the surface was wanted and it is of the announced revision; it fails its source exactly if that has not introduced itself, or the frame is of another incarnation or does not continue what is retained |
| Gateway.Session.SendPatch | hive/internal/gateway/gateway.go:519-548 | Whether the patch is passed on or the whole scene is sent, nothing but the viewer, the surface number and what counts as rendered changes, the viewer has the view of what counts as rendered, and an active source with a current scene is up to date |
| Gateway.Session.SendSurface | hive/internal/gateway/gateway.go:480-517 | Whatever is rendered, the viewer has the view of what counts as rendered, nothing else changes, and an active source with a current scene is up to date |
| Gateway.Session.BlankSurface | hive/internal/gateway/gateway.go:955-970 | A blank frame counts as the rendering of no source, so that no patch is taken to continue it; the frame written last is the blank one, of the numbers and the size that hold then |
| Gateway.Session.Publish | hive/internal/gateway/gateway.go:415-479 | However deep failures nest, publication ends with the invariants kept and everything presented: the active source's scene, if it is the one that its snapshot announces, was rendered last, or without an active source the viewer's last surface frame is the blank one; exactly the active source has been given the layout, if a surface is wanted, unless every slot for transitions is taken; sources and requests have only gone, an active source stays active while it is there, and nothing was issued, lost or asked for; it fails only when the viewer is gone |
| Gateway.Session.SyncInterest | hive/internal/gateway/interest.go:15-33 | Afterwards exactly the active source has the layout, if the viewer wants a surface, and nobody has it otherwise, unless every slot for transitions is taken; and what was shown before still is, through nested failures and with the same account of what may have changed |
| Gateway.Session.Relinquish | hive/internal/gateway/interest.go:15-29 | Before the active source is asked, every other one has given the layout up, so that no source has it, unless a slot was missing; and only then something is left to be brought in line |
| Gateway.Session.SetInterest | hive/internal/gateway/interest.go:34-64 | A source is asked for its layout only when no source has it; the invariants and the account of what may have changed hold whatever fails meanwhile; while the source is there and a slot is free, just this was written: the viewer's latest size, if the layout is wanted and the viewer has said one, and right after it one request under the next identity |
| Gateway.Session.Transit | hive/internal/gateway/interest.go:54-63 | A transition takes the next internal identity, goes on the books with its deadline, resets the source's rendering, and is tried once, as exactly this request to exactly this source |
| Gateway.Session.Conclude | hive/internal/gateway/gateway.go:751-764 | After a write that failed the source is gone and everything was published anew; after one that succeeded nothing has changed |
| Gateway.Session.Remove | hive/internal/gateway/gateway.go:222-250 | The source is gone, active no more, and a fence it was to confirm is owed again; of requests and expired requests none is new, nobody else is affected, and the books still balance: whoever waited for it was answered |
| Gateway.Session.ExclusiveAuthority | hive/internal/gateway/interest.go:15-33 | At no time, not even within nested failures or with every slot taken, do two sources have the layout |
| Gateway.Session.LayoutFollows | hive/internal/gateway/interest.go:15-64 | Between events, a source was told last that it has the layout if and only if it is active and a surface is wanted, unless every slot for transitions is taken, and then an acknowledgement is still waited for, with a deadline |
| Gateway.Session.LayoutsInOrder | hive/internal/gateway/interest.go:15-64 | In the whole history of layouts, one is given to a source only when no source has it, and a fence that is to wait for a layout is sent only to the source that has it |
| Gateway.Session.FencesConserved | hive/internal/gateway/gateway.go:988-1004 | The fences the viewer asked for are, in order and by token, those confirmed and the one that is pending; between events a pending one waits for a source that is there, also after the source that it was sent to has left, or for the active source's wanted surface to be active |
| Gateway.Session.ResumeFence | hive/internal/gateway/gateway.go:988-1004 | Confirming, sending or keeping the fence waiting leaves the session calm, with the same account of what may have changed; a fence that can be sent waits, while its source is there, for the active source and for ten seconds |
| Gateway.Session.TakeSync | hive/internal/gateway/gateway.go:774-788 | A fence that is too long, or that comes while one is pending with a source active, ends the session and changes nothing; an accepted one counts as asked for, last |
| Gateway.Session.TakeReady | hive/internal/gateway/gateway.go:559-566 | Exactly a confirmation by the source that was sent the fence, with its token, is passed on to the viewer |
| Gateway.Session.OperationAccounted | hive/internal/gateway/gateway.go:648-706 | Every operation that was issued is outstanding, or was answered, or has lost its answer, and only one of these; an answer is lost only when its reply is no JSON object |
| Gateway.Session.AnsweredOnce | hive/internal/gateway/gateway.go:226-236 | No operation is answered twice, and its answer goes to the consumer that asked, when it is no longer outstanding |
| Gateway.Session.PayloadGenuine | hive/internal/gateway/gateway.go:666-706 | A payload that a consumer gets is the in-order concatenation of the parts that its own operation's reply came in, identifiers prefixed and the consumer's name put back, even after timeouts and reuse of names: stripped again, it is the source's reply, under the consumer's name |
| Gateway.Session.WrittenOnce | hive/internal/gateway/gateway.go:894-903 | Over everything ever written to any source, no two requests carry the same identity, and every identity is one the session issued |
| Gateway.Session.WrittenAsAsked | hive/internal/gateway/gateway.go:856-903 | A request with an operation's identity was written to the source it was accepted for, in the source's incarnation and own names: prefixed again, it asks exactly what the viewer asked |
| Gateway.Session.Forward | hive/internal/gateway/gateway.go:894-903 | An accepted operation gets the next identity, and as long as its source is there, it is on the books for thirty seconds, and one request was written, to it, carrying the stripped tree under that identity |
| Gateway.Session.TakeCall | hive/internal/gateway/gateway.go:816-903 | A call without a usable name ends the session and changes nothing; any other issues at most one operation, under the next identity, for just this request and consumer and a source that offers it, or is answered at once: refused for another endpoint or an unknown operation, told whether the surface is on if it asks for that |
| Gateway.Session.Operate | hive/internal/gateway/gateway.go:856-903 | Unless the viewer is gone, the operation is issued to the source that it is for; or, exactly if there is no such source, that does not offer it, no slot is free, identities are exhausted, or the source left when the focus was moved to it, nothing is issued and the last answer is this consumer's refusal; an operation that was issued is the last thing written, while its source is there, and makes its source the active one exactly if it moves the focus |
| Gateway.Session.Aim | hive/internal/gateway/gateway.go:856-872 | A request is for the one source that owns all its identifiers, and without any for the active one; it is turned away only if no source owns all of them |
| Gateway.Session.ResolveAll | hive/internal/gateway/gateway.go:856-869 | If a request is valid, its identifiers all belong to the one source that is found, or there are none, and the tree in the names of that source is computed; if it is not, no source owns all of them |
| Gateway.Session.ResolvesBack | hive/internal/gateway/gateway.go:743-750 | An identifier that was prefixed for a source resolves to exactly that source and the identifier it was |
| Gateway.Session.RepliesByName | hive/internal/gateway/interest.go:9-13 | Only one text leads to an outstanding or expired request: the reserved name spaces of operations and transitions never meet |
| Gateway.Session.BooksAgree | hive/internal/gateway/gateway.go:289-307 | Deadlines and outstanding requests agree, operations are exactly the ordinary ones, expired ones are not outstanding, whoever is to answer is there, no consumer has two operations outstanding under one name, and a source keeps parts only of replies to its own requests |
| Gateway.Session.WithinBounds | hive/internal/gateway/gateway.go:666-675 | At most eight sources, 64 outstanding or expired operations, 16 transitions, and a frame's worth of unfinished replies per source |
| Gateway.Session.TooManyReplies | hive/internal/gateway/gateway.go:669-675 | The limit on the number of unfinished replies turns a part away if and only if every slot is taken by a request to this source that has begun its reply, and this reply is empty so far |
| Gateway.Session.TakeChunk | hive/internal/gateway/gateway.go:648-706 | A part of a reply from the wrong place, or too many, is turned away and changes nothing; a late one is drained; any other is appended to what came before, and the last part of an operation concludes it with the concatenation |
| Gateway.Session.Deliver | hive/internal/gateway/gateway.go:686-706 | A finished reply that is an object answers its consumer, and only it, once; any other loses the answer and fails the source |
| Gateway.Session.Acknowledge | hive/internal/gateway/gateway.go:686-698 | The whole reply to a transition decides: garbage fails the source for good, an error or no object for the moment, both with nothing in the chronicle; any other is put there as the acknowledgement, before whatever it lets resume |
| Gateway.Session.Overdue | hive/internal/gateway/gateway.go:289-307 | A late transition, and nothing else, fails its source, which is gone with all its requests; a late operation is answered, is outstanding no more and remembered as expired; all other requests and the fence stay |
| Gateway.Session.StableMeansAcknowledged | hive/internal/gateway/recovery.go:70-85 | A source counts as stable exactly since the chronicle last says so, and since then it was told nothing: its surface is still wanted and no transition is outstanding |
| Gateway.Session.SteadyAfterFrame | hive/internal/gateway/gateway.go:633-637 | In every run, rendering is found stable only after the source was told that its surface is wanted, then sent a frame of the revision it had announced, and was told nothing in between or since |
| Gateway.Session.SteadyAfterReplies | hive/internal/gateway/gateway.go:686-698 | In every run, rendering is found stable only after every transition since the source was opened got a reply that, put together from its parts, is an object without an error |
| Gateway.Session.ReopenedLate | hive/internal/gateway/recovery.go:44-68 | In every run, while the failures of an incarnation are not forgotten, only that incarnation is opened again, and after k failures in a row not before 1, 3, 7, 15 seconds after the first, and 31 + 16(k - 5) for k of five or more |
| Gateway.Session.NeverReopened | hive/internal/gateway/gateway.go:271-277 | In every run, an incarnation that failed for good is opened again only after a tick whose list did not have it |
| Gateway.Session.ForgottenFor | hive/internal/gateway/recovery.go:86-90 | Failures are forgotten only after ten seconds of stable rendering, or when the last tick's list did not have the incarnation |
| Gateway.Session.SteadyFromNow | hive/internal/gateway/recovery.go:70-85 | A period of stable rendering never starts earlier than anything that happened before it was noticed |
| Gateway.Session.RecordsAreTrue | hive/internal/gateway/recovery.go:29-36 | What is on record of failures is exactly what the run's failures since the last forgetting amount to; a quarantined incarnation has no source |
| Gateway.Session.Fail | hive/internal/gateway/recovery.go:44-68 | A failing source leaves, its failure goes into the chronicle and on the record once, and no other record appears |
| Gateway.Session.ResetRecovery | hive/internal/gateway/recovery.go:86-90 | Failures are dropped from the record exactly when rendering has been stable long enough, and that is put in the chronicle |
| Gateway.Session.DropRecords | hive/internal/gateway/gateway.go:271-277 | Exactly the records of incarnations that the list does not have are dropped |
| Gateway.Session.OpenShared | hive/internal/gateway/gateway.go:308-351 | Everything listed is open or withheld by its failures, and nothing withheld was opened |
| Gateway.Session.Refresh | hive/internal/gateway/gateway.go:251-356 | A tick puts what counts of the catalog into the chronicle once, then sweeps exactly, then everything listed is open or withheld by the failures that the chronicle has at that time; publishing brings no other source, and the session is calm |
| Gateway.Session.Sweep | hive/internal/gateway/gateway.go:264-307 | What a tick leaves: exactly the sources still shared in the same incarnation that have announced themselves, confirmed the fence and acknowledged every transition in time; exactly the requests to them that are not overdue; and the fence, waiting only for a source that is left |
| Catalogs.ShownIff | hive/internal/gateway/gateway.go:253-257 | A publication counts if and only if it is shared and fewer than eight others come before it by identifier |
| Catalogs.MissingIff | hive/internal/gateway/gateway.go:271-277 | An incarnation is missing, so that its failures are forgotten, if and only if it is not shared or eight others come before it |
| Catalogs.NinthIsForgotten | hive/internal/gateway/gateway.go:253-277 | With eight others before it, a publication that is shared as before loses whatever is on record of its failures |
| Gateway.Session.Take | hive/internal/gateway/gateway.go:156-206 | Each event keeps the invariants, adds to the chronicle's ticks exactly its own list if it is one, and ends the loop or leaves the session calm |
| Gateway.Session.HearViewer | hive/internal/gateway/gateway.go:765-941 | Each message of the viewer is handled for what it is: calls as `TakeCall` says, fences asked for, keys and sizes written to the source that the viewer sees, and what is malformed ends the session and changes nothing |
| Gateway.Session.HearSource | hive/internal/gateway/gateway.go:550-728 | Each message of a source is handled for what it is: garbage fails it for good and its end for the moment, with nothing changed; a welcome counts once; announcements, confirmations, scenes and replies as their handlers say |
| Gateway.Session.Pass | hive/internal/gateway/gateway.go:793-815 | What the viewer types reaches the source that owns the identifier, under the source's own name for it, exactly if that is the active source and its surface is on |
| Gateway.Session.TakeResize | hive/internal/gateway/gateway.go:904-918 | A size out of bounds ends the session and changes nothing; any other is written to the active source, if its surface is on, and is otherwise that of the blank frame written last |
| Gateway.Session.Elect | hive/internal/gateway/gateway.go:415-423 | If no source is active, the first by identifier of those that have announced themselves becomes active, if there is one; an active one stays |
| Gateway.Session.Serve | hive/internal/gateway/gateway.go:97-208 | Every run, of any events in any order, keeps the invariants to its end |
| GatewayLaws.LaterTransitive | hive/internal/gateway/gateway.go:415-424 | What a nested publication may have changed composes, so that any depth of nesting amounts to one step |
| GatewayLaws.FailuresWait | hive/internal/gateway/recovery.go:60-65 | By induction on the run: every further failure in a row delays the next opening by the doubled waiting time |
| Popups.RetainedIfKnown | hive/internal/gateway/wire.go:392-405 | Whatever is retained, a frame is taken exactly if it would be by a reader of popups like the rewriter and every popup size kind in it is 0 or 1, and then with the same screen |
| Popups.AcceptedNotRetained | hive/internal/gateway/wire.go:229-243 | Every complete screen of such a reader, written out, is accepted by the rewriter, and retained if and only if its popup's size kinds are 0 or 1 |
| Popups.OddScreenIsLost | hive/internal/gateway/wire.go:232-238 | A whole frame with a popup of size kind 2 passes the rewriter and is never retained, though such a reader would retain it |
| Endpoint.PatchFrameShows | hive/internal/gateway/gateway.go:519-548 | A translated patch that fits a frame is taken by a viewer who has the view of the screen before it, and leaves the view of the screen after it |
| Endpoint.FullFrameShows | hive/internal/gateway/gateway.go:480-517 | A full scene that fits a frame leaves the view of the screen, whatever the viewer had |
| Endpoint.GoodScreensAreFrames | hive/internal/gateway/wire.go:376-389 | Every retained screen can be written for a viewer |
| Endpoint.RetainedScreenIsAFrame | hive/internal/gateway/wire.go:275-389 | After any run of accepted frames the retained screen, written out, is accepted by the rewriter under any substitution, and anyone rebuilds the same screen from it |
| Viewing.RelayRefines | hive/internal/gateway/wire.go:219-260 | Rewriting commutes with patching, byte for byte: the rewritten patch applied to the view of a screen gives the view of the patched screen, for every injective renaming |
| Viewing.ReplaceCommutes | hive/internal/gateway/wire.go:323-353 | Replacing panes by identifier and renaming identifiers commute when no two identifiers fall together |
| Viewing.CollisionsDoNotCommute | hive/internal/gateway/wire.go:323-353 | When two identifiers do fall together they do not commute: replacing a pane by itself then changes another |
| Viewing.PresentLoads | hive/internal/gateway/gateway.go:480-517 | The presented scene loads as the view, whatever images the viewer had |
| Surfaces.SurfacePrefixFree | hive/internal/gateway/wire.go:219-260 | An accepted frame has no accepted proper prefix |
| Surfaces.SurfaceComposes | hive/internal/gateway/wire.go:219-260 | Rewriting a rewritten frame is one rewriting by the composed substitution, byte for byte, if what the first wrote can be read back |
| Surfaces.LimitFits | hive/internal/gateway/wire.go:112-133 | Substitutions within the limits of texts and numbers can always be read back |
| Surfaces.RewriteSurface | hive/internal/gateway/wire.go:219-260 | The rewriter, run on the decoder, computes the specified rewriting and rejects everything else |
| Grammar.ParsePrefix | hive/internal/gateway/wire.go:74-158 | Reading any layout never looks past what it reads |
| Grammar.ParseComposes | hive/internal/gateway/wire.go:120-133 | For any layout, reading the output of one pass back gives the output of the composed pass, and its size |
| Grammar.ParseIndependent | hive/internal/gateway/wire.go:120-133 | What is accepted, and how much of it, does not depend on what is substituted |
| Grammar.PlainCopies | hive/internal/gateway/wire.go:74-82 | A layout without substitutions copies its bytes |
| Wire.NumberRoundTrip | hive/internal/gateway/wire.go:40-59 | Every 64-bit number is read back as written, whatever follows |
| Wire.ReadBySpelling | hive/internal/gateway/wire.go:84-111 | A number is read if and only if the bytes spell it: one byte below 251, or after 251, 252, 253 two, four, eight bytes, of which the first weighs 1 and each further one 256 times as much as the one before |
| Wire.ReadByForm | hive/internal/gateway/wire.go:84-111 | The same with the bytes of each form written out, whatever follows |
| Wire.WrittenSpells | hive/internal/gateway/wire.go:40-59 | What is written spells the number, in the shortest form that can, its lowest byte right after the mark |
| Wire.TextRoundTrip | hive/internal/gateway/wire.go:112-119 | So is every text within the frame limit |
| Wire.TextSpelled | hive/internal/gateway/wire.go:112-119 | A text that is read is its length, spelled as a number, and then its bytes in order, within the limit |
| Wire.SpelledText | hive/internal/gateway/wire.go:112-119 | And every text within the limit that is spelled so is read |
| Decoding.Decoder.Raw | hive/internal/gateway/wire.go:74-83 | Reads exactly so many bytes and copies them, or raises the flag |
| Decoding.Decoder.Number | hive/internal/gateway/wire.go:84-111 | Reads one number in its four forms; a truncated one or a reserved first byte raises the flag; the bytes it consumed spell the number that it returns |
| Decoding.Decoder.ReadString | hive/internal/gateway/wire.go:112-119 | Reads one text, unless it is longer than a frame or than what is left |
| Decoding.Decoder.ReplaceText | hive/internal/gateway/wire.go:120-126 | Reads one text and leaves the substituted one in the output |
| Decoding.Decoder.ReplaceNumber | hive/internal/gateway/wire.go:127-133 | Reads one number and leaves another in the output |
| Decoding.Decoder.RunMany | hive/internal/gateway/wire.go:134-143 | A counted repetition, whose count may not exceed the bytes that are left |
| Decoding.Decoder.Run | hive/internal/gateway/wire.go:67-218 | For every layout the cursor advances, the output grows and the flag rises exactly as the layout says |
| Screens.ReadHeader | hive/internal/gateway/wire.go:276-279 | A header's fields are within the limits of texts and numbers, and it occupies at least four bytes |
| Retention.HeaderRoundTrip | hive/internal/gateway/wire.go:357-359 | A header that retention writes is read back, whatever follows |
| Retention.HeaderByParts | hive/internal/gateway/wire.go:275-285 | A header is its tag, its boot, its projection and its surface revision, in this order |
| Retention.GoodLoads | hive/internal/gateway/wire.go:376-389 | A retained screen, written out, loads as itself, whatever images the reader has |
| Retention.RetainedScreenIsComplete | hive/internal/gateway/wire.go:275-389 | Whatever full and incremental frames led to it, with or without image data, the retained screen is a frame from which anyone rebuilds it exactly |
| Retention.RetainedImagesAreTheWantedOnes | hive/internal/gateway/wire.go:414-464 | The images kept are exactly those that a placement or reference of the screen wants |
| Retention.PatchGood | hive/internal/gateway/wire.go:296-360 | A patched screen is again complete and settled |
| Retention.PatchHeader | hive/internal/gateway/wire.go:296-301 | A patch is taken only by the screen it continues: same boot and projection, and the next revision |
| Screens.ProductIsProduct | hive/internal/gateway/wire.go:371-373 | The area is the product of width and height |
| Painting.PaintsIfAllFit | hive/internal/gateway/wire.go:304-322 | Rows are painted if and only if each begins with a column and a line, its line is on the screen, it ends within the width, with 64 bits, and every cell of it has a position there |
| Painting.PaintsByCoordinates | hive/internal/gateway/wire.go:304-322 | Then every position has the last cell that is for it, counted line by line with 64 bits, and what was there if none is |
| Painting.CellsByCoordinates | hive/internal/gateway/wire.go:304-322 | On a screen whose size does not wrap, the cell in a column of a line is, after a patch, that of the last row which covers this column of this line, and what was there if none does |
| Painting.PatchAmends | hive/internal/gateway/wire.go:293-370 | A patch that is taken repaints the cells so, leaves the size as it was, and brings its own cursor and the next revision |
| CompleteSurfaces.CompleteSurface.Update | hive/internal/gateway/wire.go:275-375 | The object updated in place succeeds exactly as the function does, with the same screen; a full frame makes the screen its cells, width and height, in this order, and a patch repaints exactly the positions that its rows are for |
| CompleteSurfaces.CompleteSurface.Replace | hive/internal/gateway/wire.go:280-295 | A full frame starts the screen over; images that it leaves out are kept from before, and a failure means that the function fails or the tail is too long |
| CompleteSurfaces.CompleteSurface.Amend | hive/internal/gateway/wire.go:296-360 | A patch changes cells, panes, cursor, header and revision exactly as the function says; every position has the last cell that a row has for it, and the cursor is the patch's |
| CompleteSurfaces.CompleteSurface.PaintCells | hive/internal/gateway/wire.go:309-320 | Cells are overwritten from a 64-bit offset that wraps, each within the screen |
| CompleteSurfaces.CompleteSurface.ReplacePanes | hive/internal/gateway/wire.go:329-356 | Panes are replaced by identifier in their order, and the rest of the tail stays |
| CompleteSurfaces.CompleteSurface.RetainGraphics | hive/internal/gateway/wire.go:414-464 | Expands the images into exactly the wanted ones, or fails because one is missing or they are too long |
| CompleteSurfaces.CompleteSurface.Emit | hive/internal/gateway/wire.go:444-461 | Writes out the wanted images in order of first mention, until one is missing or the limit is passed |
| CompleteSurfaces.CompleteSurface.WriteOut | hive/internal/gateway/wire.go:376-389 | Writes the full frame that the screen amounts to |
| Namespace.TransformComposes | hive/internal/gateway/gateway.go:377-404 | Transforming a tree twice is transforming it once with the composed function |
| Namespace.TransformAgrees | hive/internal/gateway/gateway.go:377-404 | What becomes of a tree depends only on what becomes of its identifiers |
| Namespace.TransformIds | hive/internal/gateway/gateway.go:377-404 | The identifiers of a transformed tree are exactly the transformed identifiers |
| Namespace.ResolveInverts | hive/internal/gateway/gateway.go:743-750 | With distinct prefixes of one length, a prefixed identifier belongs to exactly its source and gives back what it was |
| Namespace.OwnerUnique | hive/internal/gateway/gateway.go:743-750 | Nothing belongs to two sources |
| Namespace.PrefixRoundTrip | hive/internal/gateway/gateway.go:699-700 | Prefixing and stripping leave every identifier as it was |
| Namespace.StripRoundTrip | hive/internal/gateway/gateway.go:858-866 | So do stripping and prefixing, for a tree whose identifiers all begin with the prefix |
| Namespace.SameIsIdentity | hive/internal/gateway/gateway.go:377-404 | Transforming by the identity changes nothing exactly for trees whose identifier fields hold texts |
| Sizings.Sizing.ReferencesConserved | bee/internal/herdr/sizing.go:356-394 | In every run, a registered controller counts exactly the viewers that hold this very controller |
| Sizings.Sizing.InUseIsSafe | bee/internal/herdr/sizing.go:373-419 | A controller in use is not retired and cannot be reclaimed |
| Sizings.Sizing.IdleIsUnused | bee/internal/herdr/sizing.go:388-393 | What can be reclaimed is held by nobody |
| Sizings.Sizing.SlotsBounded | bee/internal/herdr/sizing.go:204-228 | Never more helpers run than there are slots |
| Sizings.Sizing.DueMeansQuiet | bee/internal/herdr/sizing.go:396-402 | A retirement takes effect only if nobody took the controller since the release that scheduled it |
| Sizings.Sizing.WritesFollowPins | bee/internal/herdr/sizing.go:831-846 | In every run, whatever other viewers did meanwhile, a navigation of an active view was written only after its view was brought in line: the view was then what it is at the write, and every pane of the destination known then had been acquired by the viewer, or was said to be gone, and the viewer let none go before the write; so it is with the first activation, for the displayed tab |
| Sizings.Sizing.ReleasedAfterItsEnd | bee/internal/herdr/sizing.go:708-718 | In every run, a viewer releases a pane on the tab of a navigation that it began only after the navigation was refused, or was acknowledged and its tab or a state as new as its barrier was shown, or after the surface was hidden or the viewer left; or else its surface was off all the while, or the pane was gone, not known, or not shown on the tab when it was decided what to keep |
| Sizings.Sizing.UnderWayUntilItEnds | bee/internal/herdr/sizing.go:708-718 | In every run, a navigation that has not ended so is pending, with just the acknowledgement and the floor that it was given |
| Sizings.Sizing.ExactMeans | bee/internal/herdr/sizing.go:554-575 | A view in line holds, by registered controllers, the known panes on the tab that is shown or on one being navigated to, but for what is gone; and none unless it is active |
| Sizings.Sizing.RequestedIsActive | bee/internal/herdr/sizing.go:788-802 | A view whose surface was last asked for is active exactly until its viewer leaves |
| Sizings.Sizing.Reserve | bee/internal/herdr/sizing.go:204-228 | Ends, makes room at the cost of idle controllers only, and refuses only when all slots are taken and none is idle |
| Sizings.Sizing.Stop | bee/internal/herdr/sizing.go:354-371 | The controller is retired, its helper has ended, its slot is free, and it is registered no more; nothing else changes |
| Sizings.Sizing.Release | bee/internal/herdr/sizing.go:373-394 | The viewer holds the pane no more; a controller that was replaced meanwhile is only forgotten and its replacement is not touched; after the last viewer the controller stays registered and idles, with its retirement scheduled in a new epoch, or is stopped if its helper has ended |
| Sizings.Sizing.Expire | bee/internal/herdr/sizing.go:396-402 | However late a timer, it stops its controller exactly if that is registered, unused and in the epoch of the timer, and then nobody took it since |
| Sizings.Sizing.Watch | bee/internal/herdr/sizing.go:421-429 | A controller whose helper ended is taken off the registry exactly if it is registered and unused |
| Sizings.Sizing.Close | bee/internal/herdr/sizing.go:431-443 | When the publication is closed no controller of it is registered |
| Sizings.Sizing.Catalogue | bee/internal/herdr/sizing.go:445-516 | A snapshot alone stops no controller; those stopped are of panes that the terminal program does not list |
| Sizings.Sizing.Pin | bee/internal/herdr/sizing.go:636-691 | The pane is held by the registered controller, or gone, or it failed; what the viewer holds otherwise is as before, even if the controller was reclaimed meanwhile |
| Sizings.Sizing.ReleaseRest | bee/internal/herdr/sizing.go:685-692 | Exactly the panes to keep remain held, each by the same controller, whatever others do meanwhile |
| Sizings.Sizing.CloseView | bee/internal/herdr/sizing.go:695-706 | A viewer that leaves holds nothing and is not active |
| Sizings.Sizing.Reconcile | bee/internal/herdr/sizing.go:528-693 | On success the view holds exactly the existing panes of the displayed tab and of unsettled navigations, each by its registered controller, and that is put on record; all acquisitions come before all releases, and on failure nothing was released |
| Sizings.Sizing.Plan | bee/internal/herdr/sizing.go:554-575 | The panes to hold, each once, and no others |
| Sizings.Sizing.TakeHello | bee/internal/herdr/sizing.go:741-763 | A viewer introduces itself once; on success the introduction is what is left to pass on, and otherwise nothing is |
| Sizings.Sizing.TakeRequest | bee/internal/herdr/sizing.go:764-833 | A request beyond the limits, or under the identifier of a pending navigation, fails and changes nothing; any other makes of the view exactly what it asks: the surface asked for, or to be hidden by the latest such request, or a navigation to the tab named or that of the first pane or workspace named, pending under the next sequence number; on success the view is in line with it and the request is what is left to pass on |
| Sizings.Sizing.TakeResponse | bee/internal/herdr/sizing.go:848-908 | Of every navigation: a refused one goes; one answered without an error stays pending and acknowledged while its tab is not shown and no barrier floor of it is reached, and goes otherwise; a barrier sets the floor of exactly its own sequence; hiding the surface ends all; nothing else changes; a refused barrier fails |
| Sizings.Sizing.AlignNow | bee/internal/herdr/sizing.go:528-693 | After any steps of others, the view then holds exactly its panes, and nothing else of it has changed |
| Sizings.Sizing.TakeSnapshot | bee/internal/herdr/sizing.go:909-948 | A stale snapshot changes nothing; a new one is shown and its panes are held; exactly after the first one, of an active view, the activation is left to be passed on; of the pending navigations exactly those go that were acknowledged and are now shown, or as old as what is shown |
| Sizings.Sizing.PassOn | bee/internal/herdr/sizing.go:837-846 | After any steps of others, exactly what was left to pass on is written, on record with the view as it is then |
| SizingLaws.RequestingKeeps | bee/internal/herdr/sizing.go:786-829 | A request changes what is asked for and what is pending, and nothing that is held or displayed |
| SizingLaws.TabOfFirst | bee/internal/herdr/sizing.go:805-820 | A pane or workspace leads to the tab of the first entry of its name |
| SizingWire.WireNumberRoundTrip | bee/internal/herdr/sizing_wire.go:188-196 | Every number that Bee writes is read back, by its reader or Hive's |
| SizingWire.WireControlRoundTrip | bee/internal/herdr/sizing_wire.go:197-200 | A control message that Bee wrote is read by Bee and by Hive as what it says |
| SizingWire.ControlRoundTrip | bee/internal/herdr/sizing_wire.go:72-73 | A control message that Hive wrote is read by Bee as what it says |
| SizingWire.WireDecoder.Number | bee/internal/herdr/sizing_wire.go:44-71 | Bee's reader in place reads exactly the numbers that Hive's does; it fails exactly if the bytes spell no number, and otherwise consumes what spells the one it returns |
| Enrollment.Server.DevicesLimited | hive/internal/server/enroll.go:32-84 | Whatever a crash undoes, no more devices are registered with a token than it may be used for |
| Enrollment.Server.Enroll | hive/internal/server/enroll.go:32-84 | Through crashes between any two writes every registered key stays counted and unique; unless the host stops, the key is enrolled exactly if its registration certainly happened, which is tried exactly if the use is certain; a registration that did not happen gives a reservation of its own back, and one that may have happened does not; a registered key changes nothing |
| Enrollment.Server.RejectedLeavesNothing | hive/internal/server/enroll.go:74-81 | A reservation that was given back leaves every key as it was used before, and the usage itself exactly if the token was not on record without any use |
| Enrollment.Server.ReserveUse | hive/internal/enrollment/enrollment.go:224-254 | A use is granted only when it is on disk for certain and within the limits of the token, the tokens and the keys |
| Enrollment.Server.AppendAuthorizedKey | hive/internal/enrollment/enrollment.go:309-329 | A key is written only when its use is certain to last; only a replacement that did not happen leaves it unregistered |
| Enrollment.Server.ReleaseUse | hive/internal/enrollment/enrollment.go:255-274 | Giving a reservation back keeps every registered key counted |
| Enrollment.Server.Crash | hive/internal/enrollment/enrollment.go:139-187 | Whichever contents last, everything still holds of them |
| Enrollment.LoadUses | hive/internal/enrollment/enrollment.go:189-223 | Usage state is taken exactly if its identifiers, keys and counts are valid and within the limits |
| Enrollment.ReservedValid | hive/internal/enrollment/enrollment.go:224-254 | A reservation keeps usage valid and within the token's limit |
| Enrollment.ReleasedValid | hive/internal/enrollment/enrollment.go:255-274 | A release keeps usage valid |
| Enrollment.ReleaseRestores | hive/internal/enrollment/enrollment.go:255-274 | Releasing a fresh reservation restores the usage there was exactly if the token was not on record without any use |

## Findings

Some properties that one would expect hold only under a condition. Each is stated with that condition.

- *An operation is answered.* Not when its final reply is no JSON object: the request is off the books before
  the reply is decoded (`hive/internal/gateway/gateway.go:686-689` and `:703-705`), so the consumer hears
  nothing. `Gateway.Session.OperationAccounted` says that this is the only way to lose an answer, and
  `Gateway.Session.Deliver` that it happens exactly then.
- *Releasing a reservation restores the usage map.* `LoadUses` accepts a record without uses, and `ReleaseUse`
  deletes it. `Enrollment.ReleaseRestores`: restored if and only if there was no such record.
- *A requested surface is active.* `sizeView.close` ends `active` and leaves `requestedActive`.
  `SizingLaws.LeavesARequest` gives the view it leaves; `Sizings.Sizing.RequestedIsActive`: active if and only
  if the viewer has not left.
- *The limit on unfinished replies protects.* It turns a part of a reply away if and only if every slot is in use
  by this one source and has begun its reply, and this reply is empty so far; in all other cases the slots run out
  first. `Gateway.Session.TooManyReplies`.
- *Failures are kept as long as a session is shared.* Only while it is among the first eight identifiers with
  the same generation (`hive/internal/gateway/gateway.go:255-257` and `:271-277`). `Catalogs.NinthIsForgotten` gives
  a catalog of nine with which the last loses its record; `Catalogs.MissingIff`: an incarnation is missing from what
  counts if and only if it is not shared or eight others come before it. `Gateway.Session.DropRecords` drops exactly
  the records of those missing, and `Gateway.Session.ForgottenFor` and `Gateway.Session.NeverReopened` say so of
  every run, with what counted at the tick.
- *Stripping what was prefixed gives the tree back.* Identifier fields that hold no text become texts.
  `Namespace.PrefixRoundTrip` gives the tree under the identity, which by `Namespace.SameIsIdentity` is the
  tree itself if and only if those fields hold texts.
- *A frame that the rewriter accepts can be retained.* The rewriter takes any size kind of a popup but 0 for a
  percentage, and retention insists on 0 or 1 (`hive/internal/gateway/wire.go:232-238` and `:395-405`), so a
  frame can pass the one check and fail the other, and with it its source. `Popups.OddScreenIsLost` gives such a
  frame, byte by byte in `Popups.OddFrame`. `Popups.RetainedIfKnown`: of the frames that retention would take if
  it read popups like the rewriter, it takes one if and only if every size kind in it is 0 or 1;
  `Popups.FrameKinds` reads these off the frame.

## Left out

- SSH, sockets, processes, terminals, goroutines and channels: their effects are events, failed writes and
  nondeterministic choices.
- JSON text: trees are the starting point, and the parser of replies is a parameter about which nothing is
  assumed.
- Hashes, nonces and random boots: the prefix of a source is a parameter; where it matters, prefixes are
  assumed to be of one length and distinct.
- The composition of the published snapshot (labels, numbers, focus): it is written, and its content is not
  modelled. Replayed effects and discarded notifications are events without content.
- The wait for a viewer's introduction, and its negotiation: `Serve` starts after it.
- `Gateway.Session.Serve`: what is shared is read at each tick and does not change within it, and no identifier is
  in it twice, since it comes from a map (`hive/internal/server/gateway.go:68-79`); the loop's choice among ready
  events is any order of events.
- `Gateway.Session.Take`: a message of a source whose connection is not open is ignored. There is none in the program:
  whoever opens a connection announces it to the loop before reading from it (`hive/internal/gateway/gateway.go:319-343`).
- `Gateway.Session.HearViewer`: which sources a broadcast was written to is not stated.
- `CompleteSurfaces.CompleteSurface.Update`: what an update that fails leaves behind is not stated, since the
  caller drops the source then.
- `Endpoint.PatchFrameShows`, `Endpoint.FullFrameShows` and `Gateway.Session.ViewerSees`: for frames that fit
  the frame limit; one that does not is not written, and ends the session as a failed write does. The retained
  budget does not count the sizes that `bytes` adds.
- `Gateway.Session.ViewerSees`: for revisions below 2^64, at which the counters of the source would wrap.
- `Sizings.Sizing.StopAll`, `Sizings.Sizing.ReleaseRest`: that this publication only reclaims idle controllers of
  others is stated for each of their steps, and not for the loops, in which others act too.
- Controls of a sizing viewer other than its introduction: they are passed on after a reconciliation, as requests
  that need nothing are.
- The relay goroutines of Bee; its codec is modelled.
- Token files, secrets and their expiry, the parsing of key files, and file modes: a token is its identifier
  and limit, a line its key and token.
