# Texture loader and bottom bar, in Dafny

This project models two components of a Unity model viewer and proves properties about them.

**The texture loader** (`AdvancedTextureLoader`) starts five texture downloads: base colour, emission, occlusion, metallic-roughness and normal map. It installs each completed download into one input of the object's material:

- A failed download, meaning a connection or protocol error, is logged and changes nothing.
- The emission texture also switches emission on, in white and with real-time global illumination.
- The normal map is copied and re-encoded pixel by pixel: alpha takes red, red and green become 0.5, blue is kept. It is then installed with bump scale 1.
- The metallic-roughness map is converted pixel by pixel into the engine's metallic/gloss layout, (b, 0, 0, 1 − g). It is then installed with both factors at 1.

**The bottom bar** (`BottomBarManager`) has three buttons:

- Front turns the object back to the orientation it had when the component woke up.
- Left and right turn it a further quarter turn about z, with x at 90° and y at 0.
- Every frame, `Update` steps the object towards its target and snaps it onto the target once it is within 0.01°.
- Each button press highlights the label of the button pressed. A label shows its long text in white when the button's name contains its word (`Left`, `Right`, `Front`), and its short text in grey otherwise.

The model has three modules:

- `Pixels` (`pixels.dfy`): colour samples and the two per-pixel remappings.
- `TextureLoader` (`texture_loader.dfy`):
  - the two pixel loops, as methods over `array2`
  - the material, as a class whose state the loader updates
  - the requests and their effect on the material, with the lemmas that each request's outcome depends only on its own download
  - the component class
- `BottomBar` (`bottom_bar.dfy`): the ordinal substring test, the label choice, and the component as a class over an abstract rotation type.

## Model

| member | source | states |
|---|---|---|
| Pixels.NormalEncode | Assets/Scripts/TextureLoader.cs:63-67 | a re-encoded normal-map pixel has red and green at 0.5, and a pixel whose channels lie in [0, 1] stays in [0, 1] |
| Pixels.NormalEncodeDeterminedBy | Assets/Scripts/TextureLoader.cs:63-67 | two pixels re-encode alike exactly when they agree on red and blue, so alpha carries the source red and blue passes through |
| Pixels.MetallicGloss | Assets/Scripts/TextureLoader.cs:99-102 | metallic (red) is the glTF metalness (blue), smoothness (alpha) is one minus the roughness (green), green and blue are 0, and channels in [0, 1] stay in [0, 1] |
| Pixels.MetallicGlossDeterminedBy | Assets/Scripts/TextureLoader.cs:102 | two samples convert alike exactly when they agree on metalness and roughness, so the conversion loses neither |
| Pixels.RemapBoundaryValues | Assets/Scripts/TextureLoader.cs:59-105 | the two remappings on black and white inputs |
| TextureLoader.RemapNormalMap | Assets/Scripts/TextureLoader.cs:55-69 | the working copy has the source's size and holds every source pixel re-encoded at its own coordinates; the in-place loop never disturbs a pixel already written; the source is only read |
| TextureLoader.ConvertMetallicRoughness | Assets/Scripts/TextureLoader.cs:92-105 | the new texture has the original's size and holds every original pixel converted at its own coordinates; the original is only read |
| TextureLoader.NormalMapChannels | Assets/Scripts/TextureLoader.cs:59-68 | in a re-encoded normal map every pixel's alpha is the source's red, its blue the source's blue, its red and green 0.5; normalized input gives normalized output |
| TextureLoader.MetallicGlossChannels | Assets/Scripts/TextureLoader.cs:95-104 | in a converted map every pixel is (b, 0, 0, 1 − g) of the source pixel at the same coordinates; normalized input gives normalized output |
| TextureLoader.Material.constructor | Assets/Scripts/TextureLoader.cs:17 | the material starts in the given state |
| TextureLoader.Material.SetTexture | Assets/Scripts/TextureLoader.cs:25 | only the named texture slot changes, to the given texture |
| TextureLoader.Material.SetFloat | Assets/Scripts/TextureLoader.cs:73 | only the named float property changes, to the given value |
| TextureLoader.Material.SetEmissionColor | Assets/Scripts/TextureLoader.cs:24 | only the emission colour changes |
| TextureLoader.Material.EnableEmission | Assets/Scripts/TextureLoader.cs:22 | only the emission keyword changes, to on |
| TextureLoader.Material.SetGIFlags | Assets/Scripts/TextureLoader.cs:23 | only the global-illumination flags change |
| TextureLoader.Configure | Assets/Scripts/TextureLoader.cs:22-24 | the emissive request switches emission on, with real-time global illumination and a white emission colour; the metallic-roughness request sets both factors to 1 (lines 111-112) and the normal map the bump scale to 1 (line 73); every other setting keeps its value |
| TextureLoader.Installed | Assets/Scripts/TextureLoader.cs:18-32 | after a request installs a texture, its slot holds exactly that texture |
| TextureLoader.SlotInjective | Assets/Scripts/TextureLoader.cs:18-32 | the five requests write five different texture slots |
| TextureLoader.ConfigureIndependent | Assets/Scripts/TextureLoader.cs:20-32 | the settings one request writes leave every setting another request writes alone |
| TextureLoader.ConfigureCommute | Assets/Scripts/TextureLoader.cs:20-32 | two requests' settings give the same result in either order |
| TextureLoader.InstalledIndependent | Assets/Scripts/TextureLoader.cs:15-33 | installing one request leaves every slot and setting of every other request unchanged |
| TextureLoader.InstalledCommute | Assets/Scripts/TextureLoader.cs:15-33 | two different requests completing in either order leave the same material |
| TextureLoader.InstalledIdempotent | Assets/Scripts/TextureLoader.cs:15-33 | an installed request holds, and installing the same texture again changes nothing |
| TextureLoader.StepOutcome | Assets/Scripts/TextureLoader.cs:35-51 | a request completing when its part of the material is untouched holds its part afterwards if it succeeded, and leaves it untouched if it failed |
| TextureLoader.UntouchedAcross | Assets/Scripts/TextureLoader.cs:15-33 | another request completing keeps a request's part of the material untouched |
| TextureLoader.OutcomeAcross | Assets/Scripts/TextureLoader.cs:15-33 | another request completing keeps a request's outcome and the texture in its slot |
| TextureLoader.UntouchedThrough | Assets/Scripts/TextureLoader.cs:15-33 | a request not yet completed finds its part of the material as it was at the start, however many other requests have completed |
| TextureLoader.CompletedOutcome | Assets/Scripts/TextureLoader.cs:15-33 | when distinct requests complete in any order, each one's outcome depends only on its own download, and the texture it installed is still in its slot at the end |
| TextureLoader.StartCompletes | Assets/Scripts/TextureLoader.cs:18-32 | the five requests of start-up are distinct, and their five steps form one completed run |
| TextureLoader.StartOutcome | Assets/Scripts/TextureLoader.cs:15-33 | after the five requests of start-up, each has its own outcome and its own texture still in its slot |
| TextureLoader.Failed | Assets/Scripts/TextureLoader.cs:41 | a download counts as failed exactly on a connection or protocol error; success, in-progress and data-processing results all take the branch that installs the content (also line 82) |
| TextureLoader.AdvancedTextureLoader.constructor | Assets/Scripts/TextureLoader.cs:7-17 | the component holds its five URLs and the renderer's material |
| TextureLoader.AdvancedTextureLoader.Start | Assets/Scripts/TextureLoader.cs:15-33 | for each of the five requests: a failed download leaves that request's slot and settings as they were; a successful one leaves its settings written and its slot holding the texture derived from that download (as is, re-encoded normal map, or converted metallic/gloss map) |
| TextureLoader.AdvancedTextureLoader.LoadTexture | Assets/Scripts/TextureLoader.cs:35-51 | on a connection or protocol error the material is unchanged; otherwise the callback installs the downloaded content exactly once |
| TextureLoader.AdvancedTextureLoader.ApplyTexture | Assets/Scripts/TextureLoader.cs:18-32 | each of the four callbacks writes its slot and its settings and nothing else, with the texture given or, for the normal map, re-encoded |
| TextureLoader.AdvancedTextureLoader.ApplyNormalMap | Assets/Scripts/TextureLoader.cs:53-74 | the bump-map slot holds the re-encoded copy of the given texture, the bump scale is 1, and nothing else changes |
| TextureLoader.AdvancedTextureLoader.LoadAndConvertMetallicRoughness | Assets/Scripts/TextureLoader.cs:76-115 | on a connection or protocol error the material is unchanged; otherwise the metallic/gloss slot holds the converted texture, both factors are 1, and nothing else changes |
| BottomBar.Contains | Assets/Scripts/BottomBarManager.cs:75-77 | ordinal substring test: a word at the start of the name is found, and a found word is never longer than the name |
| BottomBar.OccursShift | Assets/Scripts/BottomBarManager.cs:75-77 | an occurrence in the tail of a name is an occurrence in the name one index further on |
| BottomBar.ContainsOccurs | Assets/Scripts/BottomBarManager.cs:75-77 | the substring test finds a word exactly when it occurs at some index of the name |
| BottomBar.Highlight | Assets/Scripts/BottomBarManager.cs:79-85 | a label is white exactly when it is highlighted, and grey otherwise; it shows its long text exactly when it is highlighted |
| BottomBar.LabelsFor | Assets/Scripts/BottomBarManager.cs:73-86 | left shows "< Left" iff the name contains "Left" (else "<"); right shows "Right >" iff it contains "Right" (else ">"); front shows "· Front ·" iff it contains "Front" (else "·"); each label is white exactly when it shows its long text, and grey otherwise |
| BottomBar.HighlightCount | Assets/Scripts/BottomBarManager.cs:79-85 | the number of white labels is the number of the three words the name contains |
| BottomBar.ExactlyOneHighlighted | Assets/Scripts/BottomBarManager.cs:79-85 | a name containing exactly one of the three words makes exactly one label white |
| BottomBar.BottomBarManager.constructor | Assets/Scripts/BottomBarManager.cs:27-37 | the object's orientation on waking becomes both the initial rotation and the target, with no turn in progress |
| BottomBar.BottomBarManager.Update | Assets/Scripts/BottomBarManager.cs:48-59 | with no turn in progress nothing changes; otherwise the object takes one step towards the target and, once within 0.01°, rests exactly on the target with the turn ended; the target and the labels never change; a resting object is at its target |
| BottomBar.BottomBarManager.RotateObject | Assets/Scripts/BottomBarManager.cs:61-64 | the new target has Euler angles (90, 0, z + angle), where z is the object's current z angle and not the initial one; a turn is in progress |
| BottomBar.BottomBarManager.SetRotation | Assets/Scripts/BottomBarManager.cs:66-71 | the target becomes exactly the given rotation and a turn is in progress, whatever the previous state, so a click during a turn replaces its target |
| BottomBar.BottomBarManager.ChangeTextFromButton | Assets/Scripts/BottomBarManager.cs:73-86 | the three labels become the ones chosen for the button's name; orientation, target and turning flag are unchanged |
| BottomBar.BottomBarManager.ClickFront | Assets/Scripts/BottomBarManager.cs:41 | the front button's target is always the rotation recorded on waking; the object's orientation is unchanged |
| BottomBar.BottomBarManager.ClickLeft | Assets/Scripts/BottomBarManager.cs:42 | the left button's target is (90, 0, current z − 90); the object's orientation is unchanged |
| BottomBar.BottomBarManager.ClickRight | Assets/Scripts/BottomBarManager.cs:43 | the right button's target is (90, 0, current z + 90); the object's orientation is unchanged |

## Left out

- **Network.** The HTTP requests are not modelled. `Start` takes the network as a parameter, `fetch`, which gives the completed download for each URL.
- **Coroutines.** The five coroutines are modelled as completing in the order they are started. `CompletedOutcome` and `InstalledCommute` prove that the outcome does not depend on that order. Engine scheduling and downloads still in progress are not modelled.
- **Logging.** `Debug.LogError` on a failed download is not modelled, so the download carries no error text. The failure branch changes nothing.
- **Decoding errors.** `DownloadHandlerTexture.GetContent` is the download's `content`. For a result that is neither a connection nor a protocol error (including `DataProcessingError`), the model installs that content, as the code's branch does. A failure of the decoder itself is not modelled.
- **GPU-side texture work.** `Graphics.CopyTexture` is modelled as the working texture being initialised from the source's pixels. `Texture2D.Apply` (the GPU upload), the mipmap flag and `TextureFormat.RGBA32` are not modelled.
- **Pixel precision.** Colour channels are exact reals. The RGBA32 format's 8-bit quantisation of stored pixels and 32-bit float rounding are not modelled.
- **Fresh textures.**
  - TextureLoader.RemapNormalMap: the contract does not state that the working texture is newly allocated and distinct from the source.
  - TextureLoader.ConvertMetallicRoughness: the contract does not state that the converted texture is newly allocated.
- **The material.** It keeps only the properties the loader writes, with shader property names as constructors. `mainTexture` is the `_MainTex` slot. Looking up the renderer's material (`GetComponent<Renderer>().material`) is a constructor argument.
- **Rotation maths.** `Quaternion.Euler`, `eulerAngles.z`, `Quaternion.RotateTowards` and `Quaternion.Angle` are parameters of the bar component. The rotation type is abstract. Consequences:
  - Nothing is proved about the quaternion maths itself.
  - BottomBar.BottomBarManager.Update: the contract does not state that a turn eventually ends. That depends on the convergence of `RotateTowards`.
- **Frame time.** `Time.deltaTime` is a parameter of `Update`. The speed, the step and the 0.01° threshold are reals, not 32-bit floats.
- **The rotated object.** The object's transform is a field of the bar component. Another script moving the same transform is not modelled.
- **UI plumbing.**
  - Listener registration (`onClick.AddListener`) is modelled as the three click methods.
  - `frontButton.Select()` is not modelled.
  - Looking up the `Image` and `TextMeshProUGUI` components is not modelled.
  - The button colours `cbBlue` and `cbWhite` are read in `Awake` but never used; they are not modelled.
  - The three label objects are values held by the component, so aliasing between them is not modelled. Their initial texts are constructor arguments.
