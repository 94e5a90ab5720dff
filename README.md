# Image Bypasser selection nodes, in Dafny

A model of the two ComfyUI plugin nodes of the "Image Bypasser" repository.
Each node takes two optional image inputs and passes one of them downstream.
An input whose upstream node is bypassed arrives as `None`. When neither input
is present, the node passes a synthesised all-black placeholder image instead.

- `ImageSelector.select_image` (the basic node) picks by presence, with a
  `fallback_mode` of `image1_priority` or `image2_priority` as tie-break. Its
  placeholder is 512x512.
- `ImageSelectorAdvanced.select_image_advanced` has five selection modes
  (`force_image1`, `force_image2`, `auto_select`, `image1_priority`,
  `image2_priority`) and a configurable placeholder size. It also returns a
  human-readable description of the choice.

Both nodes are stateless branching, so both are pure Dafny functions.

- `image_selector.dfy`, module `ImageSelector`: the data model and both nodes.
  - An image is an opaque type parameter `T`, and an optional input is an `Option<T>`.
  - The output is `Chosen(image)` or `Fallback(height, width)`. The latter
    stands for the all-zero float tensor of shape (1, height, width, 3).
  - The mode is the plain string the host passes. Strings outside the offered
    choices therefore take the code's `else` and fall-through paths.
  - Parameters keep the source's default values.
- `selection_info.dfy`, module `SelectionInfo`: a reading of the advanced
  node's description strings, independent of the node.
  - A description is a colon-free heading, `": "`, and a word. The word starts
    with `image1`, `image2`, or anything else (which names the placeholder). A
    description without a colon names the placeholder too.
  - `DescriptionMatchesChoice` proves that for every input, every mode string
    and every size, the description never misreports the forwarded image.
    It rests on one small lemma per description literal (`ForcedImage1Read`,
    `AutoBothRead`, ...), which are proof steps rather than separate claims.

Where the code and its documentation disagree, the model follows the code:

- The basic class's docstring says that with both inputs present "it defaults
  to image1". The code honours `fallback_mode`: any string other than
  `"image1_priority"` forwards image2 (`SelectImageBothPresent`).
- The host form offers only the listed mode choices (`INPUT_TYPES`,
  image_selector.py:19 and 76-84), but the functions themselves accept any
  string and define a result for every other one: the basic node treats it as
  `image2_priority`, and the advanced node forwards the placeholder with an
  empty description even when images are present (`UnknownMode`).

## Model

| member | source | states |
|---|---|---|
| `ImageSelector.SelectImage` | comfyui_image_selector/image_selector.py:30-61 | the placeholder is forwarded exactly when both inputs are absent, and it has shape (1, 512, 512, 3); a forwarded image is always one of the inputs; image2 wins over a present image1 only when the mode is not "image1_priority" |
| `ImageSelector.SelectImageSinglePresent` | comfyui_image_selector/image_selector.py:43-49 | presence overrides priority: when exactly one input is present, that input is forwarded under every mode string |
| `ImageSelector.SelectImageBothPresent` | comfyui_image_selector/image_selector.py:51-56 | with both inputs present, image1 is forwarded iff the mode is exactly "image1_priority", and image2 under every other string |
| `ImageSelector.SelectImageDefaults` | comfyui_image_selector/image_selector.py:30-61 | called with its defaults (no inputs), the basic node forwards the 512x512 placeholder |
| `ImageSelector.SelectImageAdvanced` | comfyui_image_selector/image_selector.py:105-174 | the placeholder has shape (1, fallback_height, fallback_width, 3); a forwarded image is always one of the inputs; auto_select and the priority modes fall back iff both inputs are absent; "force_image1" forwards image1 when it is present and otherwise the placeholder, even when image2 is present, and "force_image2" likewise for image2; an unknown mode gives the placeholder and an empty description |
| `ImageSelector.ForceImage1` | comfyui_image_selector/image_selector.py:124-129 | "force_image1" forwards image1 with "Forced selection: image1" whenever image1 is present, whatever image2 is; otherwise it forwards the placeholder with "Forced image1 but bypassed, using fallback", even when image2 is present |
| `ImageSelector.ForceImage2` | comfyui_image_selector/image_selector.py:130-135 | the mirror of ForceImage1 for "force_image2" |
| `ImageSelector.AutoSelect` | comfyui_image_selector/image_selector.py:138-150 | "auto_select" forwards the single present input, image1 when both are present, and the placeholder only when both are absent, each with its exact description |
| `ImageSelector.Image1Priority` | comfyui_image_selector/image_selector.py:152-160 | "image1_priority" forwards image1 when present, else image2 when present, else the placeholder, each with its exact description |
| `ImageSelector.Image2Priority` | comfyui_image_selector/image_selector.py:162-170 | "image2_priority" forwards image2 when present, else image1 when present, else the placeholder, each with its exact description |
| `ImageSelector.UnknownMode` | comfyui_image_selector/image_selector.py:121-174 | a mode string outside the five choices falls through every branch: placeholder of the requested size, empty description, even when images are present |
| `ImageSelector.PriorityModesMirror` | comfyui_image_selector/image_selector.py:124-170 | "image1_priority" on (a, b) forwards the same image as "image2_priority" on (b, a); likewise "force_image1" and "force_image2" |
| `ImageSelector.BasicIsAdvancedPriority` | comfyui_image_selector/image_selector.py:30-174 | the basic node forwards what the advanced node forwards at 512x512 in the same priority mode; "auto_select" forwards what "image1_priority" does |
| `ImageSelector.ForcedBypassedScenario` | comfyui_image_selector/image_selector.py:124-174 | no inputs, "force_image1", width 128, height 256: placeholder of shape (1, 256, 128, 3) with "Forced image1 but bypassed, using fallback" |
| `SelectionInfo.DescriptionMatchesChoice` | comfyui_image_selector/image_selector.py:121-174 | for all inputs, mode strings and sizes, the description names the placeholder iff the placeholder is forwarded, and an input it names is present and is what was forwarded |
| `SelectionInfo.MirroredDescriptions` | comfyui_image_selector/image_selector.py:124-170 | swapping the inputs and the priority (or the forced input) swaps which input the description names |
| `SelectionInfo.ForcedDescription` | comfyui_image_selector/image_selector.py:124-135 | the descriptions of the two forced modes never misreport |
| `SelectionInfo.AutoDescription` | comfyui_image_selector/image_selector.py:138-150 | the descriptions of "auto_select" never misreport |
| `SelectionInfo.Image1PriorityDescription` | comfyui_image_selector/image_selector.py:152-160 | the descriptions of "image1_priority" never misreport |
| `SelectionInfo.Image2PriorityDescription` | comfyui_image_selector/image_selector.py:162-170 | the descriptions of "image2_priority" never misreport |

## Left out

- Tensor contents and dtype: the placeholder is built with `torch.zeros(..., dtype=torch.float32)`. The model records only its shape through `Fallback(height, width)`, meaning "all zeros of this shape". Floating point is not modelled.
- `ImageSelector.SelectImageAdvanced`: the sizes are `nat`. `torch.zeros` raises on a negative dimension, and the host never passes one, so the model does not include that error path.
- The 64..2048 step-64 range on `fallback_width`/`fallback_height` is enforced by the host's input form, not by the function. The model accepts any `nat`.
- The one-element result tuples `(image,)` and `(image, info)` become the element itself and the `Outcome` datatype.
- Node registration metadata is host plumbing with no selection logic. This covers `INPUT_TYPES`, `RETURN_TYPES`, `RETURN_NAMES`, `FUNCTION`, `CATEGORY`, `NODE_CLASS_MAPPINGS` and `NODE_DISPLAY_NAME_MAPPINGS`. The package's `__init__.py` only re-exports the two mapping dictionaries.
- A mode value that is not a string at all (Python would compare it unequal to every choice) is not representable. Every string, including unknown ones, is.
- Host graph execution, bypass mechanics and concurrency belong to the host application. The nodes are pure, so repeating a call with the same inputs gives the same result by construction.
