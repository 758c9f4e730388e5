# Crop-and-annotate editor, video grid, preview and chat panel — a Dafny model

This project models the browser video-chat client's image editor and three
smaller pieces around it, and proves properties of the model.

- **Image editor** (`EditImage.tsx`). It has eight resize handles with a
  hover test and a flip table, and a crop region that can be resized,
  moved, dimmed by four masks and rescaled when the displayed image
  changes size. It has two pens, pencil and markerpen, and crop mode and
  pen mode exclude each other. Save computes the geometry of the export.
- **Video grid** (`MemberList.tsx`): columns, rows, track sizes,
  container style and tiles.
- **Image preview** (`PreviewImage.tsx`): wheel zoom and drag-to-pan.
- **Chat panel** (`Chat.tsx`): pending attachments, the send flow,
  incoming messages and the size label of a file.
- **Unread counter** of the store (`store/reducers/chat.ts`).

Coordinates are `real`, so scaling is exact. Client rectangles, pointer
positions, the original image's pixel size, the file-type icon lookup, and
which file reads fail all arrive as parameters.

Modules and files:

| file | module | contents |
|---|---|---|
| `wrappers.dfy` | `Wrappers` | `Option` |
| `geometry.dfy` | `Geometry` | points, rectangles, `Min`/`Max` |
| `crop.dfy` | `Crop` | handles, hover, flip table, resize step, masks, move, rescale |
| `strokes.dfy` | `Strokes` | stroke recording, bounding box of the on-screen canvas |
| `export.dfy` | `Export` | scale, source rectangle and stroke placement at save time |
| `editor.dfy` | `Editor` | the editor as a class with one method per event handler |
| `memberlist.dfy` | `MemberGrid` | grid arithmetic and tiles |
| `preview.dfy` | `Preview` | zoom and pan functions and the preview class |
| `chat.dfy` | `Chat` | size labels, trimming, list edits, the chat panel class |
| `chatstore.dfy` | `ChatStore` | the unread-count reducer and its slice |

Facts about the code that the model follows:

- There are only two pens, pencil and markerpen. There is no rectangle,
  polyline or mosaic tool and no undo/redo stack.
- A markerpen stroke starts with one point, not two. Its second point is
  appended by the first move and overwritten afterwards.
- A resize of the displayed image rescales the crop region only. Recorded
  strokes are not rescaled.
- A save with nothing to export returns silently.
- The unmount cleanup leaves the stroke listeners of an unfinished stroke
  attached.
- The crop handlers (`updateDown`, `updateCursor`, `updateCutInfo`) are
  re-created by every render, and a listener is only removed by passing the
  function that was added. The model therefore names each attached handler
  set by the render that created it, and a `Render` method moves the editor
  to its next render. Leaving crop mode removes only the current render's
  set. See the second row under "## Findings".
- Save exports strokes as the code places them, without the crop-origin
  shift. See the first row under "## Findings".

## Model

| member | source | states |
|---|---|---|
| Crop.Hover | src/components/edit/EditImage.tsx:64-85 | no handle iff the pointer is inside the region box; outside it, a corner zone (both axes outside) wins over an edge zone, per the 3x3 table `HandleAt` |
| Crop.MirrorX | src/components/edit/EditImage.tsx:100-183 | the horizontal mirror swaps the left and right sides a handle owns and keeps its vertical sides |
| Crop.MirrorY | src/components/edit/EditImage.tsx:100-183 | the vertical mirror swaps top and bottom and keeps the horizontal sides |
| Crop.Flip | src/components/edit/EditImage.tsx:100-183 | after a step, each collapsed axis swaps the side the handle owns on that axis, and nothing else changes |
| Crop.PositionBySides | src/components/edit/EditImage.tsx:27-36 | a handle is determined by the four sides it owns, so Flip's contract fixes its result |
| Crop.ResizeAxis | src/components/edit/EditImage.tsx:95-214 | one axis of a resize step: a non-negative extent; a low-side handle follows the clamped pointer, stays in [0, W - 3] and keeps the high edge fixed unless crossed; a high-side handle keeps the start and never passes the parent |
| Crop.Resize | src/components/edit/EditImage.tsx:87-215 | the whole resize step: width and height >= 0; untouched axes unchanged; right/bottom handles keep left/top; the left/top side follows the pointer within [parent, parent end - 3]; the opposite edge stays fixed unless crossed; the flip rule |
| Crop.ResizeStaysInside | src/components/edit/EditImage.tsx:87-215 | a region inside its parent stays inside after any resize step |
| Crop.AxisStaysInside | src/components/edit/EditImage.tsx:95-214 | the per-axis half of ResizeStaysInside |
| Crop.RightBottomPastLeftTopFlips | src/components/edit/EditImage.tsx:148-160 | dragging the bottom-right handle to within 3 px of the top-left corner collapses both axes and makes the handle top-left |
| Crop.MaskStyle | src/components/edit/EditImage.tsx:217-235 | left mask + region + right mask widths = parent width, top + region + bottom heights = parent height; the side masks share the region's top and height; a `'100%'` extent resolves to the rendered size |
| Crop.MasksTileParent | src/components/edit/EditImage.tsx:217-235 | every point of the parent lies in exactly one of the region and the four masks |
| Crop.Move | src/components/edit/EditImage.tsx:250-272 | a move keeps width and height, keeps left in [0, parentW - w] and top in [0, parentH - h], and shifts by exactly the pointer delta when no clamp applies |
| Crop.DragTelescopes | src/components/edit/EditImage.tsx:250-272 | an unclamped drag moves the region by the pointer's total displacement |
| Crop.Rescale | src/components/edit/EditImage.tsx:296-323 | left and pixel width scale by newW/oldW, top and pixel height by newH/oldH; a `'100%'` extent stays symbolic |
| Crop.RescaleKeepsRelativeGeometry | src/components/edit/EditImage.tsx:296-323 | left/displayWidth, top/displayHeight and the extents relative to the display are invariant under a rescale |
| Crop.RescaleComposes | src/components/edit/EditImage.tsx:296-323 | two successive rescales equal one rescale from the first size to the last |
| Strokes.Extend | src/components/edit/EditImage.tsx:376-390 | one move/up: style kept; markerpen writes index 1 (appending it the first time) and keeps the rest; any other pen state appends the point |
| Strokes.Record | src/components/edit/EditImage.tsx:360-393 | a recorded stroke starts at the mousedown point with the current colour and width |
| Strokes.PencilStrokeKeepsEveryPoint | src/components/edit/EditImage.tsx:381-383 | a pencil stroke is the mousedown point followed by every later pointer position, in order |
| Strokes.MarkerpenStrokeIsASegment | src/components/edit/EditImage.tsx:379-380 | a markerpen stroke is the mousedown point alone or that point and the last pointer position: never more than two points |
| Strokes.Bounds | src/components/edit/EditImage.tsx:575-582 | the reduce from [Infinity, Infinity, 0, 0] yields bounds of every point; the least coordinates are attained by a point; the greatest are 0 or attained, never below 0 |
| Strokes.OnScreen | src/components/edit/EditImage.tsx:583-597 | the on-screen canvas of a stroke draws each point back at its recorded image offset, at least half a line width inside the canvas |
| Export.ScaleOf | src/components/edit/EditImage.tsx:432-435 | scale x display size = original size, per axis |
| Export.SourceOf | src/components/edit/EditImage.tsx:439-454 | the copied source is the scaled region when cropping, otherwise the whole displayed image scaled |
| Export.PlanAsWritten | src/components/edit/EditImage.tsx:424-464 | the export as written: crop, then strokes at point x scale with no crop-origin offset (scaled by `setCanvas`, line 599) |
| Export.ExportPlan | src/components/edit/EditImage.tsx:424-464 | the export: canvas of the original's size without a crop, the scaled region with one; every stroke keeps its style, and each point lands on the canvas pixel showing the original pixel under it |
| Export.NoCropPlansAgree | src/components/edit/EditImage.tsx:448-461 | without a crop the written and the anchored export are the same |
| Export.CroppedStrokeIsOffset | src/components/edit/EditImage.tsx:439-464 | a crop at (10, 10) moves a stroke point drawn at (20, 20) onto a different pixel as written; anchored it goes to (10, 10) |
| Export.DoubleScaleExample | src/components/edit/EditImage.tsx:432-464 | a 100 x 100 original shown at 50 x 50 exports a stroke from (10, 10)-(30, 30) at (20, 20)-(60, 60) |
| Editor.EditImage.constructor | src/components/edit/EditImage.tsx:53-63 | the initial editor: region 0, 0, 100%, 100%; handle Left; pen colour red and width 2 (lines 353-354); crop mode off (line 411); no tool, no strokes, no listeners, first render |
| Editor.EditImage.UpdateCursor | src/components/edit/EditImage.tsx:66-85 | only without a held button and with a region: the handle and the cursor become those Hover picks; inside the box nothing changes |
| Editor.EditImage.UpdateLeft | src/components/edit/EditImage.tsx:185-192 | left := x - parentLeft, width := max(right - x, 0) |
| Editor.EditImage.UpdateTop | src/components/edit/EditImage.tsx:193-200 | top := y - parentTop, height := max(bottom - y, 0) |
| Editor.EditImage.UpdateWidth | src/components/edit/EditImage.tsx:201-207 | width := max(x - left, 0) |
| Editor.EditImage.UpdateHeight | src/components/edit/EditImage.tsx:208-214 | height := max(y - top, 0) |
| Editor.EditImage.DragLeftSide | src/components/edit/EditImage.tsx:102-106 | the left-side case of the switch equals the left-owning ResizeAxis step |
| Editor.EditImage.DragTopSide | src/components/edit/EditImage.tsx:122-126 | the top-side case equals the top-owning ResizeAxis step |
| Editor.EditImage.DragRightSide | src/components/edit/EditImage.tsx:142-146 | the right-side case equals the right-owning ResizeAxis step |
| Editor.EditImage.DragBottomSide | src/components/edit/EditImage.tsx:162-166 | the bottom-side case equals the bottom-owning ResizeAxis step |
| Editor.EditImage.MoveHeldHandle | src/components/edit/EditImage.tsx:100-183 | the eight-case switch sets the region to the two ResizeAxis steps and the handle to Flip of the collapsed axes |
| Editor.EditImage.UpdateCutInfo | src/components/edit/EditImage.tsx:87-215 | while a handle is held in crop mode: the new region and handle are Resize's; otherwise nothing changes |
| Editor.EditImage.Render | src/components/edit/EditImage.tsx:66-85 | the next events run the handlers of the next render, which the render creates anew |
| Editor.EditImage.UpdateDown | src/components/edit/EditImage.tsx:274-283 | render g's handler: down = is mousedown; mousedown attaches render g's resize handler, mouseup removes that one only |
| Editor.EditImage.Press | src/components/edit/EditImage.tsx:274-283 | a document mousedown/mouseup runs every attached updateDown: down = is mousedown (when any is attached); mousedown attaches the resize handler of every attached render, mouseup removes those |
| Editor.EditImage.DispatchResize | src/components/edit/EditImage.tsx:87-215 | a document mousemove runs every attached resize handler: region and handle are ResizeSteps of as many steps as handlers are attached |
| Crop.ResizeIsIdempotent | src/components/edit/EditImage.tsx:87-215 | a second step with the same handle, pointer and rectangle changes nothing |
| Crop.RepeatedStepIsOneStep | src/components/edit/EditImage.tsx:87-215 | while the handle does not flip, k >= 1 repeated steps equal one step |
| Crop.DoubleStepAfterFlip | src/components/edit/EditImage.tsx:148-160 | once the handle flips, a second step differs: bottom-right dragged to (2, 2) in a 100 x 100 region gives 2 x 2 at (0, 0) once and 98 x 98 at (2, 2) twice |
| Editor.CropListenersAfterReset | src/components/edit/EditImage.tsx:479-491 | a reset by render g's handlers: g's set attached iff crop mode; every other render's set as before |
| Editor.LeavingLaterKeepsHandlers | src/components/edit/EditImage.tsx:479-491 | entering crop mode in one render and leaving it in another leaves the first render's handlers attached |
| Editor.StableCropListenersAfterReset | src/components/edit/EditImage.tsx:479-491 | with handlers shared by every render, a reset leaves handlers attached exactly in crop mode |
| Editor.ReenteredCropModeAttachesTwice | src/components/edit/EditImage.tsx:411-417 | crop mode on, off and on again across renders: two renders' crop handlers stay attached, and a mousedown on the bottom-right handle attaches two resize handlers |
| Editor.TwoHandlersStepTwice | src/components/edit/EditImage.tsx:87-215 | with two resize handlers one mousemove steps twice: a 98 x 98 region at (2, 2) instead of Resize's single step |
| Editor.EditImage.UpdateMoveDown | src/components/edit/EditImage.tsx:505-515 | mousedown on the region records the reference point and attaches the move listener to the document; a mouseup on the region detaches it, and after a release elsewhere the listener stays |
| Editor.EditImage.UpdateRegion | src/components/edit/EditImage.tsx:250-272 | with a region and a reference point: the region is Move'd by the delta and the pointer becomes the reference; otherwise nothing changes |
| Editor.EditImage.OnImageResize | src/components/edit/EditImage.tsx:296-323 | with a region: the region is Rescale'd and the cached size becomes the new size; without one nothing changes |
| Editor.EditImage.PencilMouse | src/components/edit/EditImage.tsx:360-393 | mousedown appends exactly one one-point stroke with the current style; move/up change only the last stroke, by Extend; mouseup detaches; with no stroke nothing changes |
| Editor.EditImage.Reset | src/components/edit/EditImage.tsx:479-503 | with this render's handlers: in crop mode they are attached, out of it they are removed (other renders' stay, by CropListenersAfterReset) and the initial region and cursor are restored; pen listener attached iff a pen; a pen makes the canvases ignore the pointer |
| Editor.EditImage.Pencil | src/components/edit/EditImage.tsx:397-408 | picking a pen sets colour, width and pen, ends crop mode, removes this render's crop handlers only, restores the initial region and makes the canvases ignore the pointer |
| Editor.EditImage.Cut | src/components/edit/EditImage.tsx:412-417 | crop mode toggles and the pen is put down; this render's crop handlers are attached or removed by CropListenersAfterReset |
| Editor.EditImage.Save | src/components/edit/EditImage.tsx:424-478 | nothing to save: no plan and no change; otherwise the plan is PlanAsWritten of the region and strokes, and the editor returns to no tool, no strokes and the initial region, with this render's crop handlers removed |
| Editor.EditImage.Unmount | src/components/edit/EditImage.tsx:552-566 | the cleanup of the first render removes that render's crop and resize handlers and the move handler; later renders' handlers stay |
| MemberGrid.Members | src/components/chatroom/MemberList.tsx:27-37 | same length, order and connectors; audioActive/videoActive iff the stream has at least one track of that kind |
| MemberGrid.UserPositions | src/pages/chatroom/index.tsx:49 | the positions of the user streams, each once, in increasing order |
| MemberGrid.UserStreams | src/pages/chatroom/index.tsx:49 | the filter keeps the remote user streams in order and with repeats: entry j is the connector at the j-th user position |
| MemberGrid.UserStreamsOfConcat | src/pages/chatroom/index.tsx:49 | filtering a concatenation is the concatenation of the filtered parts |
| MemberGrid.UserStreamsKeepsMembers | src/pages/chatroom/index.tsx:49 | a list of user streams only passes the filter unchanged |
| MemberGrid.WithLocal | src/pages/chatroom/index.tsx:45-49 | the local member (a user stream with id "local") first, then the remote user streams; every entry a user stream |
| MemberGrid.RoomTiles | src/pages/chatroom/index.tsx:45-49 | the room's tiles: "local" first, video iff the local stream has video, then one per remote user stream in order |
| MemberGrid.CeilSqrt | src/components/chatroom/MemberList.tsx:43 | the least c with c * c >= n |
| MemberGrid.Columns | src/components/chatroom/MemberList.tsx:41-44 | columns = min(ceil(sqrt n), 4): at most 4, 0 only for an empty list, 4 from ten members on |
| MemberGrid.CeilDiv | src/components/chatroom/MemberList.tsx:48 | ceil(a / b): b * q >= a and b * (q - 1) < a |
| MemberGrid.Rows | src/components/chatroom/MemberList.tsx:46-49 | rows = ceil(n / columns): columns * rows >= n and columns * (rows - 1) < n; NaN for an empty list |
| MemberGrid.RowsFitColumns | src/components/chatroom/MemberList.tsx:41-49 | for 1..16 members, 1 <= rows <= columns |
| MemberGrid.RoomGridShape | src/components/chatroom/MemberList.tsx:41-49 | with the local member always present: 1 <= columns <= 4 and the grid has room for all with no empty row |
| MemberGrid.ColWidth | src/components/chatroom/MemberList.tsx:51-53 | column width x columns = 100 percent; Infinity% for no columns |
| MemberGrid.RowHeight | src/components/chatroom/MemberList.tsx:55-59 | 25% above sixteen members, otherwise 100/rows percent; NaN% for an empty list |
| MemberGrid.RowsFillHeight | src/components/chatroom/MemberList.tsx:55-59 | up to sixteen members the rows fill exactly 100%; beyond, they overflow |
| MemberGrid.Container | src/components/chatroom/MemberList.tsx:39-72 | 'block', 248px and #222 exactly with a main stream, else 'grid', 100% and transparent; columns and rows as above |
| MemberGrid.TileOf | src/components/chatroom/MemberList.tsx:74-91 | video iff videoActive; otherwise the icon, with audio iff audioActive; keyed by the connector id |
| MemberGrid.Tiles | src/components/chatroom/MemberList.tsx:74-93 | one tile per member in list order |
| MemberGrid.TileFollowsStream | src/components/chatroom/MemberList.tsx:27-91 | a connector's tile shows video iff its stream has a video track, else audio iff it has an audio track |
| Preview.NextScale | src/components/preview/PreviewImage.tsx:35-37 | the result is in [0.1, 10]; wheel up multiplies by 1.1 and never shrinks, wheel down by 0.9 and never grows |
| Preview.ZoomStaysInRange | src/components/preview/PreviewImage.tsx:27-37 | from scale 1, or any scale in range, every series of wheel steps stays in [0.1, 10] |
| Preview.ZoomInIsMonotone | src/components/preview/PreviewImage.tsx:36 | a series of wheel-up steps never lowers the scale |
| Preview.Drag | src/components/preview/PreviewImage.tsx:41 | one move adds exactly the pointer delta to the translation |
| Preview.PanTelescopes | src/components/preview/PreviewImage.tsx:39-45 | a drag's translation grows by the last pointer minus the mousedown pointer |
| Preview.PreviewImage.constructor | src/components/preview/PreviewImage.tsx:27-33 | scale 1, cursor grab, zero translations, no drag |
| Preview.PreviewImage.Wheel | src/components/preview/PreviewImage.tsx:35-37 | the scale becomes NextScale of the old one |
| Preview.PreviewImage.ScaleEffect | src/components/preview/PreviewImage.tsx:106-109 | the handler sees the new scale and translation = image translation x scale; a zoom leaves the image translation unchanged |
| Preview.PreviewImage.MouseMove | src/components/preview/PreviewImage.tsx:39-45 | translation follows the pointer; image translation = translation / scale and the image shows it; without a target the handler fails after updating both translations |
| Preview.PreviewImage.UpdateMouseState | src/components/preview/PreviewImage.tsx:47-60 | a mousedown other than the primary button alone changes nothing; a primary one sets grabbing, records the pointer and starts the drag; mouseup sets grab and ends it |
| Chat.FormatSize | src/components/chat/Chat.tsx:216-225 | KB iff size < 1 MiB, MB iff 1 MiB <= size < GiB/2, GB from GiB/2; the number is size / unit to the nearest hundredth, ties going up, as `toFixed(2)` rounds |
| Chat.Hundredths | src/components/chat/Chat.tsx:220-224 | `(size / unit).toFixed(2)` in hundredths: within half a hundredth of the quotient, the larger on a tie |
| Chat.Decimal | src/components/chat/Chat.tsx:220-224 | the digits JavaScript writes for a whole number: no leading zero, and they read back as the number |
| Chat.Fixed2 | src/components/chat/Chat.tsx:220-224 | `toFixed(2)`'s text: whole part, a point, two digits, reading back as h / 100 and h % 100 |
| Chat.FileMessagesStep | src/components/chat/Chat.tsx:125-141 | one more attachment appends its message unless its reading failed |
| Chat.ThousandBytesLabel | src/components/chat/Chat.tsx:220-224 | a 1000-byte file is labelled "0.98KB" |
| Chat.FileInfoOf | src/components/chat/Chat.tsx:216-240 | name and type copied, size labelled by FormatSize (sent as its SizeText), icon from the file name |
| Chat.TrimStart | src/components/chat/Chat.tsx:99 | a suffix of the input whose first character is not white space, with only white space removed |
| Chat.TrimEnd | src/components/chat/Chat.tsx:99 | a prefix whose last character is not white space, with only white space removed |
| Chat.TrimmedEmptyIffBlank | src/components/chat/Chat.tsx:99 | `trim()` is empty exactly when every character is white space |
| Chat.SpliceStart | src/components/chat/Chat.tsx:79 | `splice`'s start: negative counts from the end, clamped to [0, length] |
| Chat.SpliceOne | src/components/chat/Chat.tsx:79 | `splice(start, 1)` removes the entry at the start position if there is one, else nothing |
| Chat.RemoveDeletesExactlyOne | src/components/chat/Chat.tsx:78-81 | removing index i in range deletes exactly entry i; the others keep their order |
| Chat.Attach | src/components/chat/Chat.tsx:150-155 | one entry per picked file, in order, with its icon |
| Chat.FileMessages | src/components/chat/Chat.tsx:125-141 | at most one message per attachment, each this user's and a file message |
| Chat.FileMessage | src/components/chat/Chat.tsx:127-134 | this user's file message with the attachment's file info |
| Chat.Succeeded | src/components/chat/Chat.tsx:125-141 | the positions not failed, each once, in increasing order |
| Chat.FileMessagesAreTheSuccessfulReads | src/components/chat/Chat.tsx:118-141 | for any failed set: exactly one message per successful read, in the order of the attachments |
| Chat.AllFilesSent | src/components/chat/Chat.tsx:118-146 | when no read fails, each attachment becomes exactly its message, in order |
| Chat.ChatPanel.constructor | src/components/chat/Chat.tsx:54-88 | empty input, messages and attachments, not loading |
| Chat.ChatPanel.Remove | src/components/chat/Chat.tsx:78-81 | the pending list becomes SpliceOne of itself |
| Chat.ChatPanel.UpdateImage | src/components/chat/Chat.tsx:83-86 | an index with an entry gets the new file and keeps its icon, and every other entry stays; any other index fails with no change |
| Chat.ChatPanel.UploadFile | src/components/chat/Chat.tsx:148-156 | the picked files are appended, in order, after the pending ones |
| Chat.ChatPanel.SendMessage | src/components/chat/Chat.tsx:75-96 | a non-Enter keyup, input over 100 characters or a send in progress changes nothing; otherwise the text is sent unless blank, the attachments are taken for sending and the send captures the message list as it then is |
| Chat.ChatPanel.SendTextMessage | src/components/chat/Chat.tsx:98-116 | blank input: nothing; otherwise one message of this user with the input is appended and the input cleared |
| Chat.ChatPanel.SendFileMessage | src/components/chat/Chat.tsx:118-124 | the pending list is drained front to back, in order, and left empty |
| Chat.ChatPanel.FinishSending | src/components/chat/Chat.tsx:95-146 | the message list becomes the captured list followed by the file messages (messages received or a clear made meanwhile are lost); the pending list emptied and loading ends |
| Chat.ChatPanel.Receive | src/components/chat/Chat.tsx:45-52 | the message is appended as not this user's; the unread count grows by 1 iff the panel is closed |
| Chat.ChatPanel.ClearMessage | src/components/chat/Chat.tsx:170-173 | messages and attachments emptied |
| ChatStore.Reduce | src/store/reducers/chat.ts:11-16 | addCount adds exactly 1; clearCount gives 0 from any count |
| ChatStore.ReplayCountsAdds | src/store/reducers/chat.ts:3-13 | from the initial 0, n adds give n |
| ChatStore.CountIsAddsSinceLastClear | src/store/reducers/chat.ts:3-16 | the count is the number of adds since the last clear |
| ChatStore.ClearIsIdempotent | src/store/reducers/chat.ts:14-16 | clearing twice is clearing once |
| ChatStore.ChatSlice.constructor | src/store/reducers/chat.ts:3-5 | the count starts at 0 |
| ChatStore.ChatSlice.AddCount | src/store/reducers/chat.ts:11-13 | count + 1, and the count stays the replay of the dispatched actions |
| ChatStore.ChatSlice.ClearCount | src/store/reducers/chat.ts:14-16 | count 0, and the count stays the replay of the dispatched actions |

## Findings

| source | as written | input that shows it | evidently intended | confidence | as-written member | corrected member |
|---|---|---|---|---|---|---|
| src/components/edit/EditImage.tsx:439-461 | with a crop, the canvas starts at the crop origin, but strokes are drawn at point x scale as if it started at the image's corner | an image shown at its own size, cropped at (10, 10), with a stroke point drawn at (20, 20): the point lands at canvas (20, 20), which shows original pixel (30, 30) | each point lands on the canvas pixel showing the original pixel it was drawn over, at point x scale - crop origin x scale | not executed | Export.PlanAsWritten, Export.CroppedStrokeIsOffset | Export.ExportPlan |
| src/components/edit/EditImage.tsx:479-491 | leaving crop mode removes only the current render's crop handlers, so those an earlier render attached stay; after re-entering, each mousedown attaches one resize handler per attached set and each mousemove runs the resize step that many times | toggle crop mode on, off and on, re-rendering after each toggle; hover the bottom-right handle of a region filling a 100 x 100 parent and drag it to (2, 2): two steps run and leave a 98 x 98 region at (2, 2), where one step leaves 2 x 2 at (0, 0) with the top-left handle held | leaving crop mode detaches the crop handlers, so each mousemove runs one resize step | not executed; assumes the region is not re-rendered between two listeners of one event | Editor.EditImage.Reset, Editor.ReenteredCropModeAttachesTwice, Editor.TwoHandlersStepTwice | Editor.StableCropListenersAfterReset |

## Left out

- Rasterisation (`drawImage`, `stroke`, `toDataURL`), decoding the original image and `base64ToFile`. Only the numbers handed to them are modelled.
- Editor.EditImage.Save: the `await` for the original image is collapsed. The plan and the reset happen in one step, and replacing the editor's image with the export is not modelled.
- The browser rounds canvas width and height to whole pixels. The model keeps exact reals.
- The export draws strokes with their recorded line width, not scaled. The model records this and claims nothing more.
- Division by zero: Crop.Rescale, Editor.EditImage.OnImageResize, Export.PlanAsWritten and Export.ExportPlan require a non-zero old or displayed size. With a zero size the source would produce NaN or Infinity.
- Editor.EditImage.UpdateRegion starts from the region as it is now. The source starts from `cutInfoCache`, which an effect refreshes only after a render commits. A second mousemove before that effect runs would start from the older position and lose the first move's delta. Crop.DragTelescopes assumes this does not happen.
- Editor.EditImage.OnImageResize uses the region as it is now. The source's observer callback may see a stale region from an earlier render.
- Leading dimensions are the DOM's `getBoundingClientRect` values, passed in. Geometric lemmas assume the region's rectangle is its style placed in the parent (`Crop.Box`).
- CSS strings (`'px'`, `toFixed` percentages, cursor names, the image's crosshair cursor) are numbers and enums.
- The open and close transitions of the editor and the preview are presentational.
- MemberGrid.CeilSqrt: an exact integer root. `Math.sqrt` is floating point, exact for the lengths a room has.
- MemberGrid.Members: the stream is reduced to its track counts. Attaching streams to video and audio elements is not modelled.
- Chat.FormatSize: sizes are whole numbers of bytes below 2^53, where dividing by a power of two is exact in floating point. Larger sizes are not modelled.
- Chat.ChatPanel.SendMessage: the length limit counts characters, while JavaScript counts UTF-16 code units.
- Chat.ChatPanel.FinishSending: file messages are appended in list order. In the source they are appended as each read completes. Failed reads are a parameter (`failed`). Chunking, the worker and sending over the data channel are not modelled.
- Message ids, user names and timestamps are left out. So is the data channel a sent message goes to.
- The emoji picker, which appends to the input, is not part of this model.
- Chat.ChatPanel.UpdateImage: attachments are values. The source mutates a shared object, which FileList also holds.
- The preview's document-level mouseup listener and the image's own handler both run `UpdateMouseState`. Running it twice is the same as once, which the method's contract shows.
- File picking is not part of this model: the picker's size limits (10 MiB for images, 1 GiB for files) and its filtering, and the re-registration of the message handler on every render.
- Editor.EditImage.Render: the model leaves it to the caller when the editor re-renders. In the source React re-renders after a state change, e.g. after each toggle of crop mode.
- Editor.EditImage.UpdateCursor: each attached crop handler set runs it on a mousemove. Running it again with the same pointer and rectangle gives the same handle and cursor, so the model runs it once.
- Editor.EditImage.PencilMouse: the point is the pointer's offset within the image. The source reads `offsetX`/`offsetY` of a mouseup on the document, which are relative to the element under the pointer. So a stroke released over the toolbar or a mask ends at a point in that element's frame. The model does not capture this.
- Chat.ChatPanel.FinishSending: the captured list is taken as a copy of the rendered list. When the text was blank the source captured the rendered array itself. A message received before the next render is then pushed onto that array and survives the end of the send. The model drops it.
