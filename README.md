# Peridot vertex layouts and input dispatch, in Dafny

Peridot is a small OpenGL rendering library. This project models the two parts of it that are
exact integer and finite-map logic rather than float math or driver calls.

- **Vertex-layout arithmetic** (modules `Utils`, `Buffers`, `VertexArrays`):
  - the element-type tables: component count, byte size and name of each `Utils::Type`;
  - the `BufferElement` and `BufferLayout` constructors. The layout constructor gives every element
    the running byte total as its offset and makes the stride the grand total;
  - `VertexBuffer`, which holds a replaceable layout;
  - `VertexArray`. Its `AddVertexBuffer` turns a layout into one attribute pointer per element and
    keeps a set of vertex buffers and an optional element buffer.
- **Polling input dispatch** (module `Input`): `PollModeInput` keeps a key table and a
  mouse-button table, each from button code to callback, plus an optional cursor callback.
  Registration is first-come-first-kept. Unregistering an absent entry is a no-op. A poll invokes
  the cursor callback first, then every key callback, then every mouse callback.

Modelling choices:

- Driver handles (`mRendererId`) are plain natural numbers.
- A `glVertexAttribPointer` call becomes an `AttribPointer` value that `AddVertexBuffer` returns.
- The raw state the windowing library reports for a key or mouse button is a function parameter
  (`int -> int`). The cursor position is a pair of `real` parameters.
- Callbacks are opaque tokens (`CallbackId`). A poll returns the sequence of invocations it made.
- The dispatch loops pick table entries with `:|`. So the key and mouse orders are left open, as
  `std::unordered_map` iteration leaves them. The contract says each entry fires exactly once.
- `PollAndInvokeCallbacks` has no `modifies` clause, which is how the model says that polling
  never changes the tables (the C++ method is `const`).
- The three type tables assert on `None`, so `None` is a precondition of `TypeSize`,
  `SizeInBytes`, `GLDataType` and of element construction.
- `ShapeOf` and `ScalarOf` give the shape and scalar kind of each type. Two lemmas prove that
  both agree with what `TypeName` spells out: the digits after `Vec` or `Mat`, and the `i`
  suffix. They serve as the reference for the size tables and for `GLDataType`.
- The `BufferLayout` constructor copies its elements into a fresh array and writes the offsets in
  place, as the C++ loop does over its `std::vector`.

## Model

| member | source | states |
|---|---|---|
| `Utils.TypeName` | Peridot/include/Peridot/Utils.h:29-67 | every type, `None` included, has a name starting `Type::` |
| `Utils.TypeNameInjective` | Peridot/include/Peridot/Utils.h:29-67 | no two types share a name |
| `Utils.TypeSize` | Peridot/include/Peridot/Utils.h:101-131 | the component count is rows times columns of the shape in the type's name (1 for scalars, n for an n-vector, 9/12/16 for the matrices), between 1 and 16; `None` is unsupported |
| `Utils.SizeInBytes` | Peridot/include/Peridot/Utils.h:69-99 | byte size is 4 times the component count, hence positive; `None` is unsupported |
| `Utils.SameShapeSameSize` | Peridot/include/Peridot/Utils.h:75-124 | types of equal shape (an integer type and its float twin) have equal component counts and byte sizes |
| `Utils.ScalarOfMatchesName` | Peridot/include/Peridot/Utils.h:29-67 | the scalar kind agrees with the name: boolean exactly for `Type::Bool`, integer exactly for `Type::Int` and the names ending in `i` |
| `Utils.ShapeOfMatchesName` | Peridot/include/Peridot/Utils.h:29-67 | the shape agrees with the name: `Type::Vec<n>` is n x 1, `Type::Mat<r>x<c>` is r x c, and the scalar names are 1 x 1 |
| `Utils.IntegerAndFloatTwins` | Peridot/include/Peridot/Utils.h:10-27 | every non-Bool type has a twin of the same shape and the other scalar kind |
| `Buffers.NewElement` | Peridot/src/Buffer.cpp:11-15 | a constructed element keeps its type and name, has the table's byte size (4 per component, positive) and offset 0 |
| `Buffers.NewLayout` | Peridot/src/Buffer.cpp:17-28 | the layout keeps the input elements in order and number; element i's offset is the sum of the sizes before it; the stride is the sum of all sizes |
| `Buffers.LayoutOfIsValid` | Peridot/src/Buffer.cpp:19-26 | the constructed layout changes only offsets, and its offsets are prefix sums with the total as stride |
| `Buffers.SumSizesStep` | Peridot/src/Buffer.cpp:22-23 | one loop step: the running total grows by exactly the current element's size |
| `Buffers.SumSizesIgnoresOffsets` | Peridot/src/Buffer.cpp:21-23 | the offsets the loop writes do not affect the sizes it sums |
| `Buffers.SumSizesMonotone` | Peridot/src/Buffer.cpp:21-26 | the running total never decreases |
| `Buffers.SumSizesStrictlyMonotone` | Peridot/src/Buffer.cpp:21-26 | with positive sizes the running total strictly increases |
| `Buffers.LayoutIsContiguous` | Peridot/src/Buffer.cpp:21-26 | the first offset is 0, each element ends where the next begins, and the last ends at the stride |
| `Buffers.ElementFitsInStride` | Peridot/src/Buffer.cpp:21-26 | every element's offset plus size is at most the stride |
| `Buffers.OffsetsIncrease` | Peridot/src/Buffer.cpp:21-26 | for constructed elements, offsets strictly increase along the layout |
| `Buffers.PositionColorLayout` | Sandbox/Main.cpp:43-45 | the layout {Vec3 aPos, Vec4 aColor} gets offsets 0 and 12 and stride 28 |
| `Buffers.VertexBuffer.constructor` | Peridot/include/Peridot/Buffer.h:19-41 | a default vertex buffer has the empty layout (no elements, stride 0) and handle 0 |
| `Buffers.VertexBuffer.GetBufferLayout` | Peridot/include/Peridot/Buffer.h:36 | returns the stored layout |
| `Buffers.VertexBuffer.SetBufferLayout` | Peridot/include/Peridot/Buffer.h:33-36 | `GetBufferLayout` afterwards returns exactly the layout written; the handle is unchanged |
| `Buffers.LastLayoutWins` | Peridot/include/Peridot/Buffer.h:33-35 | of two layout writes the second is what the buffer keeps; the handle is unchanged |
| `Buffers.ElementBuffer.constructor` | Peridot/include/Peridot/Buffer.h:48-54 | a default element buffer has handle 0 |
| `VertexArrays.GLDataType` | Peridot/src/VertexArray.cpp:12-35 | BOOL exactly for `Bool`, INT exactly for the integer types, FLOAT exactly for the float types; `None` is unsupported |
| `VertexArrays.AttributeFor` | Peridot/src/VertexArray.cpp:66-68 | descriptor i has index i, no normalisation, the layout's stride and the element's offset, and a component count that is a quarter of the type's byte size |
| `VertexArrays.AttributePointers` | Peridot/src/VertexArray.cpp:63-71 | one pointer per layout element, with indices 0..n-1 in layout order; pointer i has the element's component count, data type and offset, the layout's stride, and no normalisation |
| `VertexArrays.AttributeCoversItsElement` | Peridot/src/VertexArray.cpp:66-68 | for a constructed layout, the byte range descriptor i names (offset plus four bytes per declared component) ends where element i ends and where descriptor i+1 starts, within the stride |
| `VertexArrays.MatrixAndBoolDescriptors` | Peridot/src/VertexArray.cpp:66-68 | a matrix element gets a single descriptor with more than four components, and a `Bool` element one with the boolean data type |
| `VertexArrays.Mat3x3Descriptor` | Peridot/src/VertexArray.cpp:66-68 | a layout of one `Mat3x3` element gets one descriptor of component count 9 |
| `VertexArrays.VertexArray.constructor` | Peridot/include/Peridot/VertexArray.h:14-28 | a new vertex array holds no vertex buffers, no element buffer and handle 0 |
| `VertexArrays.VertexArray.AddVertexBuffer` | Peridot/src/VertexArray.cpp:59-73 | returns the pointers for the buffer's own layout, with indices from 0 again; the buffer joins the set, and adding it twice leaves the set unchanged |
| `VertexArrays.VertexArray.RemoveVertexBuffer` | Peridot/src/VertexArray.cpp:75-84 | removes exactly that buffer; a null or absent buffer changes nothing |
| `VertexArrays.VertexArray.SetElementBuffer` | Peridot/src/VertexArray.cpp:86-91 | the stored element buffer becomes the given one; nothing else changes |
| `VertexArrays.VertexArray.UnsetElementBuffer` | Peridot/src/VertexArray.cpp:93-97 | requires an element buffer to be set; afterwards none is |
| `Input.ButtonStateValue` | Peridot/include/Peridot/Input.h:13 | `Released` is 0 and `Pressed` is 1 |
| `Input.StateFromRaw` | Peridot/src/Input.cpp:8-30 | pressed exactly when the raw state is PRESS; RELEASE and every other raw value give released |
| `Input.Registered` | Peridot/src/Input.cpp:39-62 | registering adds the code; an existing entry is kept unchanged (first registration wins); a new code maps to the new callback; no other entry changes |
| `Input.Unregistered` | Peridot/src/Input.cpp:64-84 | unregistering removes exactly that code's entry and keeps all others; an absent code is a no-op |
| `Input.UnregisterIdempotent` | Peridot/src/Input.cpp:68-74 | unregistering twice equals unregistering once |
| `Input.RegisterThenUnregisterRestores` | Peridot/src/Input.cpp:39-75 | registering a fresh code and then unregistering it gives back the original table |
| `Input.FirstRegistrationWins` | Peridot/src/Input.cpp:43-48 | a second registration on the same code changes nothing; the first callback stays |
| `Input.InvokeButtonCallbacks` | Peridot/include/Peridot/Input.h:39-47 | the table's callbacks fire in some order, each exactly once, with its own code's state |
| `Input.PollModeInput.constructor` | Peridot/include/Peridot/Input.h:17-18 | a new dispatcher has empty key and mouse tables and no cursor callback |
| `Input.PollModeInput.RegisterKeyCallback` | Peridot/src/Input.cpp:39-49 | the key table becomes `Registered(old, key, cb)`; the mouse table and cursor callback are unchanged |
| `Input.PollModeInput.RegisterMouseCallback` | Peridot/src/Input.cpp:51-62 | the mouse table becomes `Registered(old, button, cb)`; the key table and cursor callback are unchanged |
| `Input.PollModeInput.UnregisterKeyCallback` | Peridot/src/Input.cpp:64-75 | the key table becomes `Unregistered(old, key)`; the mouse table and cursor callback are unchanged |
| `Input.PollModeInput.UnregisterMouseCallback` | Peridot/src/Input.cpp:77-84 | the mouse table becomes `Unregistered(old, button)`; the key table and cursor callback are unchanged |
| `Input.PollModeInput.RegisterCursorCallback` | Peridot/src/Input.cpp:86-92 | installs the callback only when none is present, otherwise keeps the old one; both tables are unchanged |
| `Input.PollModeInput.UnregisterCursorCallback` | Peridot/src/Input.cpp:94-100 | afterwards no cursor callback is set, whether or not one was; both tables are unchanged |
| `Input.PollModeInput.PollAndInvokeCallbacks` | Peridot/include/Peridot/Input.h:32-48 | the cursor callback fires first with the cursor position, exactly when one is registered, and nowhere else; then every key callback fires exactly once with its key's state; then every mouse callback fires once with its button's state; the trace length is the sum of these counts |

## Left out

- Everything that only talks to the graphics driver or the windowing library is left out, because
  it is a call into code outside this model. That is `VertexBuffer::Create`,
  `ElementBuffer::Create`, `VertexArray::Create`, the destructors and every `Bind`/`Unbind`.
  The model takes handles as given. It keeps the default value 0, and no driver call changes it.
- AttributePointers: the model emits the descriptors the source passes, and does not capture which
  of them the driver accepts. OpenGL takes only 1 to 4 components per attribute and does not
  accept a boolean attribute type. So each matrix element, whose single descriptor has 9, 12 or 16
  components, and each `Bool` element would be refused by the driver.
  `MatrixAndBoolDescriptors` and `Mat3x3Descriptor` state which descriptors these are.
- SizeInBytes, TypeSize, GLDataType: the model covers only builds where the `None` assert is
  active, where `None` is a precondition. With assertions compiled out, `SizeInBytes` and
  `TypeSize` return 0 for `None` and `GLDataType` returns the "no type" value. A `None` element
  then takes 0 bytes and shares its offset with the next element. That is why `OffsetsIncrease`
  is stated for constructed elements only.
- `glEnableVertexAttribArray` is left out for the same reason. The emitted pointers stand for the
  enabled attributes.
- `GetCursorPos`, `glfwGetKey` and `glfwGetMouseButton` are queries to the windowing library.
  They become parameters of `PollAndInvokeCallbacks`. The `glfwGetKeyScancode`/`glfwGetKeyName`
  calls in `UnregisterKeyCallback` are left out because their results are unused.
- Logging (`spdlog`) is left out.
- The `default:` arms of the three type tables, and the `"InvalidType"` name, are left out. They
  only apply to out-of-range enum values, and a Dafny datatype has none.
- The `PollModeInput` constructor's `Context` argument is left out. It only serves the
  windowing-library queries above.
- Callbacks that re-enter the dispatcher during a poll are not modelled. A callback is an opaque
  token and cannot change the tables.
- `size_t` and `uint32_t` widths are not modelled. Sizes, offsets, strides and indices are
  unbounded naturals, because no layout comes anywhere near those limits.
- The two button-state lookups `GetKeyState` and `GetMouseButtonState` have identical logic once
  the library query is a parameter. Both are modelled by the one function `StateFromRaw`.
- Camera and camera controllers, shaders, window context, textures, render calls, the renderer,
  the frame timer, the application loop and file reading are not part of this model. They are
  float math or thin wrappers over the graphics driver and the OS.
