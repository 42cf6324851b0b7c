/** prepare_method: the closed table from a detection method to the input image
    size and the normalisation its network expects, and what the function
    returns or raises in each mode. Loading the network itself is outside the
    model: a model that test mode loads is named by its weight file only. */
module MethodResolver {
  import opened Common

  /** The normalisation scheme tags the training and inference code understand. */
  datatype Normalization = XceptionNorm | ImagenetNorm

  /** The first of the three values prepare_method returns. */
  datatype Model =
    | NoModel                    // None: the training loop builds the network itself
    | Pretrained(weights: string) // a network with the named weight file loaded

  /** The (model, img_size, normalization) triple. */
  datatype Prepared = Prepared(model: Model, imgSize: nat, normalization: Normalization)

  /** The five methods prepare_method knows, with their image size and normalisation. */
  const MethodTable: map<string, (nat, Normalization)> :=
    map[
      "xception" := (299, XceptionNorm),
      "efficientnetb7" := (380, ImagenetNorm),
      "mesonet" := (256, XceptionNorm),
      "resnetlstm" := (224, ImagenetNorm),
      "efficientnetb1_lstm" := (240, ImagenetNorm)
    ]

  /** The weight file test mode loads for a method pretrained on a dataset. */
  function WeightFile(name: string, dataset: string): string
  {
    "/deepfake_detector/pretrained_mods/weights/" + name + "_best_fulltrain_" + dataset + ".pth"
  }

  /** prepare_method(method, dataset, mode). Ok(None) is Python's implicit
      `return None`, which happens for a mode that is neither 'train' nor
      'test' and for the two sequence methods in test mode. mesonet in test mode
      calls load_state_dict on a local `model` it never assigned. */
  function PrepareMethod(name: string, dataset: string, mode: string): (r: Result<Option<Prepared>>)
    ensures r == Err(UnknownMethod(name)) <==> name !in MethodTable
    ensures mode == "train" && name in MethodTable ==>
              r == Ok(Some(Prepared(NoModel, MethodTable[name].0, MethodTable[name].1)))
    ensures r.Ok? && r.value.Some? ==>
              name in MethodTable &&
              r.value.value.imgSize == MethodTable[name].0 &&
              r.value.value.normalization == MethodTable[name].1
    ensures r.Ok? && r.value.Some? ==>
              (r.value.value.model.Pretrained? <==> mode == "test") &&
              (mode == "test" ==> r.value.value.model == Pretrained(WeightFile(name, dataset)))
  {
    if name !in MethodTable then Err(UnknownMethod(name))
    else
      var (size, norm) := MethodTable[name];
      if mode == "test" then
        if name == "xception" || name == "efficientnetb7" then
          Ok(Some(Prepared(Pretrained(WeightFile(name, dataset)), size, norm)))
        else if name == "mesonet" then Err(Unbound("model"))
        else Ok(None)
      else if mode == "train" then Ok(Some(Prepared(NoModel, size, norm)))
      else Ok(None)
  }

  /** In test mode only xception and efficientnetb7 yield a model; mesonet fails on
      its unbound local and the two sequence methods return None. */
  lemma TestModeOutcomes(name: string, dataset: string)
    ensures (PrepareMethod(name, dataset, "test").Ok? && PrepareMethod(name, dataset, "test").value.Some?) <==>
              name == "xception" || name == "efficientnetb7"
    ensures PrepareMethod(name, dataset, "test") == Err(Unbound("model")) <==> name == "mesonet"
    ensures PrepareMethod(name, dataset, "test") == Ok(None) <==>
              name == "resnetlstm" || name == "efficientnetb1_lstm"
  {
  }

  /** The callers unpack the triple (`model, img_size, normalization = ...`):
      unpacking a None raises a TypeError. */
  function Unpack(r: Result<Option<Prepared>>): (u: Result<Prepared>)
    ensures u.Ok? <==> r.Ok? && r.value.Some?
    ensures u.Ok? ==> u.value == r.value.value
    ensures r.Err? ==> u == Err(r.error)
    ensures r == Ok(None) ==> u == Err(NoneNotUnpackable)
  {
    match r
    case Err(e) => Err(e)
    case Ok(None) => Err(NoneNotUnpackable)
    case Ok(Some(p)) => Ok(p)
  }

  /** The image transformations df_augmentations composes, in order; the
      probabilities and parameters of each are outside the model. */
  datatype Transform =
    | HorizontalFlip | ImageCompression | GaussNoise | GaussianBlur
    | PadIfNeeded(minSize: nat) | ColourJitter | ToGray | ShiftScaleRotate
    | Resize(width: nat, height: nat)

  /** df_augmentations(img_size, strength): a weak or a strong pipeline, both of
      which flip first and end by resizing to the network's input size. */
  function DfAugmentations(imgSize: nat, strength: string): (r: Result<seq<Transform>>)
    ensures r.Ok? <==> strength == "weak" || strength == "strong"
    ensures r.Err? ==> r.error == UnknownAugmentation(strength)
    ensures r.Ok? ==> |r.value| >= 2 && r.value[0] == HorizontalFlip && r.value[|r.value| - 1] == Resize(imgSize, imgSize)
    ensures r.Ok? && strength == "weak" ==> |r.value| == 2
    ensures r.Ok? && strength == "strong" ==> PadIfNeeded(imgSize) in r.value
  {
    if strength == "weak" then
      Ok([HorizontalFlip, Resize(imgSize, imgSize)])
    else if strength == "strong" then
      Ok([HorizontalFlip, ImageCompression, GaussNoise, GaussianBlur, PadIfNeeded(imgSize),
          ColourJitter, ToGray, ShiftScaleRotate, Resize(imgSize, imgSize)])
    else
      Err(UnknownAugmentation(strength))
  }

  /** Training resolves the method in train mode and builds the augmentations
      from the image size it returns: the pipeline always resizes to the size
      the table assigns to the method. */
  lemma AugmentationsResizeToMethodSize(name: string, dataset: string, strength: string)
    requires name in MethodTable
    requires strength == "weak" || strength == "strong"
    ensures Unpack(PrepareMethod(name, dataset, "train")).Ok?
    ensures DfAugmentations(Unpack(PrepareMethod(name, dataset, "train")).value.imgSize, strength).Ok?
    ensures var augs := DfAugmentations(Unpack(PrepareMethod(name, dataset, "train")).value.imgSize, strength).value;
            augs[|augs| - 1] == Resize(MethodTable[name].0, MethodTable[name].0)
  {
  }
}
