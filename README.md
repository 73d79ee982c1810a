# Portfolio page: tree operations, form drafts and image lightbox

This project models the logic inside the single page of an educational portfolio
viewer and editor (`app/page.tsx`). The page holds a tree. The store (`AppData`)
holds Records ("Registro N"). Each Record holds Weeks ("Semana N"). Each Week holds
Sections, which are tasks or exercises with a name and a list of image URLs. Beside
the tree, the page keeps two form drafts and an image lightbox with zoom and pan.

The Dafny project has five modules:

- `Text` models JavaScript's `String.prototype.trim`, which strips the ECMAScript
  whitespace and line-terminator code points. It also models the decimal printing
  of the positional number inside the default names, and its inverse.
- `Seqs` models `Array.prototype.map` and `Array.prototype.filter` over sequences.
  It proves what `filter` keeps and drops, and that it keeps order, splits a list
  in two, is idempotent and distributes over concatenation.
- `Portfolio` holds the tree as datatypes. Every page mutation is a pure function
  from the previous tree to the next, as the page builds it with `map`, `filter`
  and spread: `CreateRecord`, `CreateWeek`, `SaveNewSection`, `DeleteRecord`,
  `DeleteWeek`, `DeleteSection` and `SaveSection`. The id (`Date.now()`) and the
  timestamp (`new Date().toISOString()`) are parameters.
- `Editor` holds the class `Drafts`. Its fields are the page's new-section draft
  and edit draft. Its methods are the page's handlers that change them, such as
  adding or removing an image or starting, cancelling and saving a draft.
- `Lightbox` holds the class `Viewer`. Its fields are the image list, the current
  index, the zoom, the pan offset and the drag state. Its methods are the page's
  handlers: `prevImage`, `nextImage`, `zoomIn`, `zoomOut`, `resetZoom` and the
  three mouse handlers.

The zoom factor only moves in steps of 0.25, so it is stored exactly as a count
of quarters. The range is 2 to 12, which is 0.5 to 3, and the start is 4, which
is 1. Pointer coordinates and the pan offset are whole pixels.

The model follows the code as written in these places:

- `saveSection` stores the edited name as typed. It does not trim or validate it.
- `openImageModal` takes the index as given, without clamping it. It keeps the
  zoom and the pan from the previous view.
- `createRecord` numbers the new Record from the rendered state (`data`). It
  appends to the state the update runs on (`prev`). `CreateRecord` takes both.
- Default names are Spanish: "Registro N" and "Semana N".
- Ids come from the clock and need not be unique. Every delete removes every
  entry whose id matches, and every update touches every matching entry.

## Model

| member | source | states |
|---|---|---|
| Text.Trim | app/page.tsx:159-163 | the trimmed text has no whitespace at either end, and it is empty exactly when the input is all whitespace, which is the test `!name.trim()` makes |
| Text.TrimCutsOnlyWhitespace | app/page.tsx:163 | what `trim` keeps is one contiguous piece of the input, and only whitespace is cut from either side |
| Text.TrimIdempotent | app/page.tsx:195 | trimming a trimmed URL or name changes nothing |
| Text.NatToString | app/page.tsx:107 | the number in a default name prints as a non-empty string of decimal digits with no leading zero |
| Text.ParseNatToString | app/page.tsx:121 | reading back the printed number gives the number, so the printing loses nothing |
| Seqs.Map | app/page.tsx:99-114 | `map` gives one result per element, in the same positions |
| Seqs.Filter | app/page.tsx:207 | `filter` keeps exactly the elements the predicate accepts, and never more elements than there were |
| Seqs.FilterIsSubsequence | app/page.tsx:207 | what `filter` keeps stays in its original order |
| Seqs.FilterPartition | app/page.tsx:207 | filtering by a predicate and by its negation puts every element, with its multiplicity, in exactly one of the two results |
| Seqs.FilterKeepsAll | app/page.tsx:207 | filtering a list whose every element is kept returns the list unchanged |
| Seqs.FilterIdempotent | app/page.tsx:207 | filtering twice with the same predicate is the same as filtering once |
| Seqs.FilterConcat | app/page.tsx:207 | filtering a concatenation is the concatenation of the filtered parts |
| Portfolio.RecordNamesDistinct | app/page.tsx:121 | default Record names at different positions are different |
| Portfolio.WeekNamesDistinct | app/page.tsx:107 | default Week names at different positions are different |
| Portfolio.CreateRecord | app/page.tsx:118-130 | exactly one Record is appended at the end, with the given id and time, no Weeks and the name "Registro N" where N is the rendered count plus one; earlier Records and the profile are unchanged |
| Portfolio.CreateRecordNamedByPosition | app/page.tsx:121 | when the rendered state is the current one, the new Record's name carries its own position, and no earlier position has that default name |
| Portfolio.FirstRecordFromInitialData | app/page.tsx:67-73 | the page starts with no Records and the given profile, and the first Record created from that state is "Registro 1" with no Weeks, the given id and time, and the profile unchanged |
| Portfolio.CreateRecordTwiceBeforeRender | app/page.tsx:121-128 | two appends made from the same rendered state give both new Records the same name |
| Portfolio.CreateWeek | app/page.tsx:96-116 | each Record with the given id gets exactly one Week at the end, named "Semana N" where N is that Record's old Week count plus one, with no Sections; its header is kept, and every other Record is unchanged |
| Portfolio.CreateWeekUnresolved | app/page.tsx:99-113 | with an id that names no Record, nothing changes |
| Portfolio.CreateWeekTwiceNames | app/page.tsx:103-107 | two calls on a Record with no Weeks give "Semana 1" then "Semana 2" |
| Portfolio.SaveNewSection | app/page.tsx:158-181 | with a blank name the tree is unchanged; otherwise each Week on the path gets one Section at the end, carrying the trimmed name, the type, the images, the id and the time; all headers are kept and every other Week is unchanged |
| Portfolio.SaveNewSectionUnresolved | app/page.tsx:169-181 | when no Week is on the (Record, Week) path, nothing changes |
| Portfolio.DeleteRecord | app/page.tsx:204-209 | no Record with the id is left; every other Record is kept, in its original order; the profile is unchanged |
| Portfolio.DeleteRecordRemovesExactlyMatching | app/page.tsx:207 | what is dropped, counted with multiplicity, is exactly the Records with the id, duplicates included |
| Portfolio.DeleteRecordIdempotent | app/page.tsx:204-209 | deleting twice is the same as deleting once |
| Portfolio.DeleteRecordUnresolved | app/page.tsx:207 | with an id that names no Record, nothing changes |
| Portfolio.DeleteRecordDropsSubtree | app/page.tsx:204-209 | the Sections left are the old Sections less exactly those under the deleted Records |
| Portfolio.DeleteRecordUndoesCreate | app/page.tsx:118-130 | deleting a Record by the id it was just created with restores the tree, if no other Record had that id |
| Portfolio.DeleteWeek | app/page.tsx:211-218 | in each Record with the id, no Week with the Week id is left, and the other Weeks are kept in order under the same header; every other Record is unchanged |
| Portfolio.DeleteWeekRemovesExactlyMatching | app/page.tsx:215 | in each Record with the id, what is dropped, counted with multiplicity, is exactly the Weeks with the Week id, so identical sibling Weeks are all kept |
| Portfolio.DeleteWeekIdempotent | app/page.tsx:211-218 | deleting twice is the same as deleting once |
| Portfolio.DeleteWeekUnresolved | app/page.tsx:211-218 | when no Week is on the path, nothing changes |
| Portfolio.DeleteWeekUndoesCreate | app/page.tsx:96-116 | deleting a Week by the id it was just created with restores the tree, if no Week of those Records had that id |
| Portfolio.DeleteWeekDropsSubtree | app/page.tsx:211-218 | the Sections left are the old Sections less exactly those under the deleted Weeks |
| Portfolio.DeleteSection | app/page.tsx:220-236 | in each Week on the path, no Section with the id is left and the others are kept in order; every Week off the path is unchanged; all headers are kept |
| Portfolio.DeleteSectionRemovesExactlyMatching | app/page.tsx:229 | in each Week on the path, what is dropped, counted with multiplicity, is exactly the Sections with the id, so identical sibling Sections are all kept |
| Portfolio.DeleteSectionIdempotent | app/page.tsx:220-236 | deleting twice is the same as deleting once |
| Portfolio.DeleteSectionUnresolved | app/page.tsx:220-236 | when no Section is on the path, nothing changes |
| Portfolio.DeleteSectionUndoesSaveNew | app/page.tsx:158-181 | deleting a Section by the id it was just saved with restores the tree, if no Section on that path had that id |
| Portfolio.SaveSection | app/page.tsx:245-269 | the profile and the number of Records are kept; each Record with the id is rewritten by `SaveSectionInRecord`, and every other Record is unchanged |
| Portfolio.SaveSectionInRecord | app/page.tsx:250-262 | inside one Record, the header and the Week count are kept; each Week with the id gets `SaveSectionInWeek`, and every other Week is unchanged |
| Portfolio.SaveSectionInWeek | app/page.tsx:254-261 | inside one Week, the header and the Section count are kept; each Section with the id gets the edited name, untrimmed, and the edited image list and keeps its id, type and creation time; every other Section is unchanged |
| Portfolio.SaveSectionWritesPath | app/page.tsx:245-269 | the tree keeps its shape; each Section on the path gets the edited name, untrimmed, and the edited image list; every Section keeps its id, type and creation time; Sections off the path are unchanged |
| Portfolio.SaveSectionIdempotent | app/page.tsx:245-269 | saving the same edit twice is the same as saving it once |
| Portfolio.SaveSectionUnresolved | app/page.tsx:245-269 | when no Section is on the path, nothing changes |
| Editor.AddImage | app/page.tsx:193-198 | a blank URL leaves the list unchanged; otherwise the trimmed URL, non-empty and without surrounding whitespace, is appended after the unchanged old entries |
| Editor.RemoveImage | app/page.tsx:200-202 | an index in range drops exactly that entry and keeps the rest in order; any other index leaves the list unchanged |
| Editor.RemoveUndoesAdd | app/page.tsx:193-202 | for every list and every URL, removing the entry at the old list's length after adding restores the list: the added image is taken off, and a blank URL added nothing |
| Editor.AddImageKeepsClean | app/page.tsx:193-198 | a list of non-empty trimmed URLs stays one after an add |
| Editor.RemoveImageKeepsClean | app/page.tsx:200-202 | a list of non-empty trimmed URLs stays one after a remove |
| Editor.Drafts.constructor | app/page.tsx:79-89 | both drafts start empty, and the new-section type starts as task |
| Editor.Drafts.BeginNewSection | app/page.tsx:148-156 | the new-section draft is aimed at the Week with the chosen type, and its name, images and URL field are emptied |
| Editor.Drafts.AddImageToNewSection | app/page.tsx:193-198 | the draft's images become `AddImage` of the typed URL; the URL field is cleared only when the URL was not blank; a clean list stays clean |
| Editor.Drafts.RemoveImageFromNewSection | app/page.tsx:200-202 | the draft's images become `RemoveImage` at the index; a clean list stays clean |
| Editor.Drafts.CancelNewSection | app/page.tsx:186-191 | the draft's name, images and URL field are emptied |
| Editor.Drafts.SaveNewSection | app/page.tsx:158-181 | the result is the tree with the draft saved into it, and with a blank draft name it is the tree unchanged |
| Editor.Drafts.StartEditingSection | app/page.tsx:238-243 | the edit draft takes the Section's name and image list, and the URL field is emptied |
| Editor.Drafts.AddImageToSection | app/page.tsx:278-283 | the edit draft's images become `AddImage` of the typed URL; the URL field is cleared only when the URL was not blank |
| Editor.Drafts.RemoveImageFromSection | app/page.tsx:285-287 | the edit draft's images become `RemoveImage` at the index |
| Editor.Drafts.CancelEditing | app/page.tsx:271-276 | the edit draft is emptied |
| Editor.Drafts.SaveSection | app/page.tsx:245-269 | the result is the tree with the edit draft's name and images written into the Section on the path |
| Lightbox.ZoomedIn | app/page.tsx:289-291 | zooming in adds one quarter below 3, never goes above 3, stays in 0.5 to 3 from inside that range, and changes nothing only at 3 |
| Lightbox.ZoomedOut | app/page.tsx:293-295 | zooming out takes one quarter off above 0.5, never goes below 0.5, stays in 0.5 to 3 from inside that range, and changes nothing only at 0.5 |
| Lightbox.ZoomOutUndoesZoomIn | app/page.tsx:289-295 | below 3, a zoom-out undoes a zoom-in |
| Lightbox.ZoomInUndoesZoomOut | app/page.tsx:289-295 | above 0.5, a zoom-in undoes a zoom-out |
| Lightbox.ZoomedInTimesSaturates | app/page.tsx:289-291 | n zoom-ins from inside the range climb one quarter each and stop at 3 |
| Lightbox.PreviousIndex | app/page.tsx:342-344 | the index goes back one when positive, and otherwise stays |
| Lightbox.NextIndex | app/page.tsx:346-348 | the index goes forward one when below the last position, and otherwise stays |
| Lightbox.StepsStayInRange | app/page.tsx:342-348 | an index in range stays in range; previous is a no-op only at 0 and next only at the last position, so neither wraps around; a step back undoes a step forward |
| Lightbox.DragFollowsPointer | app/page.tsx:302-319 | during a drag the image moves by exactly the pointer's displacement since the press |
| Lightbox.Viewer.constructor | app/page.tsx:75-94 | no images, index 0, zoom 1, no pan and no drag |
| Lightbox.Viewer.OpenImageModal | app/page.tsx:336-340 | the image list and the index are set as given, and the zoom, the pan and the drag state are kept |
| Lightbox.Viewer.PrevImage | app/page.tsx:342-344 | the index becomes `PreviousIndex` of the old one and stays in range if it was |
| Lightbox.Viewer.NextImage | app/page.tsx:346-348 | the index becomes `NextIndex` of the old one for the list's length and stays in range if it was |
| Lightbox.Viewer.ZoomIn | app/page.tsx:289-291 | the zoom becomes `ZoomedIn` of the old zoom and stays in 0.5 to 3 if it was |
| Lightbox.Viewer.ZoomOut | app/page.tsx:293-295 | the zoom becomes `ZoomedOut` of the old zoom and stays in 0.5 to 3 if it was |
| Lightbox.Viewer.ResetZoom | app/page.tsx:297-300 | the zoom becomes 1 and the pan becomes (0, 0), together |
| Lightbox.Viewer.HandleMouseDown | app/page.tsx:302-310 | above zoom 1, a drag starts, anchored at the pointer's offset from the image; at zoom 1 or below, nothing changes |
| Lightbox.Viewer.HandleMouseMove | app/page.tsx:312-319 | during a drag above zoom 1, the image moves to the pointer less the anchor; otherwise the pan is unchanged |
| Lightbox.Viewer.HandleMouseUp | app/page.tsx:321-323 | the drag ends |
| Lightbox.ZoomSession | app/page.tsx:289-319 | at zoom 1 a drag is ignored, and three zoom-ins from 1 give 1.75 |
| Lightbox.PanSession | app/page.tsx:297-348 | above zoom 1 a drag pans the image, and moving after release does not; browsing keeps zoom and pan; a reset restores zoom 1 and no pan |

## Left out

- Rendering, styles, animations and dialogs (`app/page.tsx` lines 350-854) are presentation.
- Loading from and saving to `localStorage` (lines 132-146) is browser I/O and JSON parsing.
- The clock is outside the model. `Date.now()` ids and `toISOString()` timestamps are parameters.
- Portfolio.CreateWeek: reads the clock once per call, so every Record with the id gets a Week with the same id and time. The page reads `Date.now()` and `new Date().toISOString()` inside the `map` callback, once for each matching Record. When several Records share the id and the clock ticks between callbacks, their new Weeks get different ids and times. `DeleteWeekUndoesCreate` relies on the single reading.
- `formatDateTime` (lines 325-334) is locale formatting by the browser.
- The CSS transform that divides the pan by the zoom (line 735) is floating-point display arithmetic.
- UI flags with no logic are left out: `isEditMode`, `isCreatingSection`, `isImageModalOpen` and `editingSection`.
- Text typed into the form fields (the `onChange` setters) is modelled as direct writes to the `Drafts` fields.
- Image indices and pointer coordinates are whole numbers. The page's JavaScript numbers could in principle be fractional.
- React batches state updates, and handlers read the rendered state. The model applies each handler to the current fields, one after another.
