/** The category constants of `src/data/categories.tsx`: two lists of named categories
    (each with an image asset) and the list of all names. */
module Categories {
  import opened Seqs
  import opened Text

  datatype Category = Category(name: string, image: string)

  const electronicsCategories: seq<Category> := [
    Category(SmartWatch, "smartwatch.png"),
    Category(Drone, "drone.png"),
    Category(GameConsole, "console.png"),
    Category(SmartPhone, "iphone.png"),
    Category(SmartTV, "smart-tv.png"),
    Category(Headphone, "headphone.png"),
    Category(Camera, "camera.png"),
    Category(Router, "wifi-router.png"),
    Category(Laptop, "laptop.png"),
    Category(VR, "vr.png"),
    Category(TWS, "tws.png")
  ]

  const fashionCategories: seq<Category> := [
    Category(Sneakers, "sneaker.png"),
    Category(Handbags, "handbag.png"),
    Category(Skincare, "cosmetic.png")
  ]

  const SmartWatch: string := "Smart Watch"
  const Drone: string := "Drone"
  const GameConsole: string := "Game Console"
  const SmartPhone: string := "Smart Phone"
  const SmartTV: string := "Smart TV"
  const Headphone: string := "Headphone"
  const Camera: string := "Camera"
  const Router: string := "Router"
  const Laptop: string := "Laptop"
  const VR: string := "VR"
  const TWS: string := "TWS"
  const Sneakers: string := "Sneakers"
  const Handbags: string := "Handbags"
  const Skincare: string := "Skincare"

  function NameOf(c: Category): string {
    c.name
  }

  /** `[...electronicsCategories.map(cat => cat.name), ...fashionCategories.map(cat => cat.name)]`. */
  function AllCategoryNames(): (names: seq<string>)
    ensures |names| == |electronicsCategories| + |fashionCategories|
    ensures names[..|electronicsCategories|] == Map(electronicsCategories, NameOf)
    ensures names[|electronicsCategories|..] == Map(fashionCategories, NameOf)
  {
    var e := Map(electronicsCategories, NameOf);
    var f := Map(fashionCategories, NameOf);
    assert (e + f)[..|e|] == e && (e + f)[|e|..] == f;
    e + f
  }

  predicate PairwiseDistinct(s: seq<string>) {
    forall i, j :: 0 <= i < j < |s| ==> s[i] != s[j]
  }

  const DeclaredNames: seq<string> := [SmartWatch, Drone, GameConsole, SmartPhone,
    SmartTV, Headphone, Camera, Router, Laptop, VR, TWS, Sneakers, Handbags, Skincare]

  /** Mapping `NameOf` over categories whose names are, index by index, `names`. */
  lemma MapNames(cs: seq<Category>, names: seq<string>)
    requires |cs| == |names| && forall i :: 0 <= i < |cs| ==> cs[i].name == names[i]
    ensures Map(cs, NameOf) == names
  {
  }

  lemma ElectronicsNames()
    ensures Map(electronicsCategories, NameOf) == DeclaredNames[..11]
  {
    var e := electronicsCategories;
    var n := DeclaredNames[..11];
    assert e[0].name == n[0] && e[1].name == n[1] && e[2].name == n[2] && e[3].name == n[3];
    assert e[4].name == n[4] && e[5].name == n[5] && e[6].name == n[6] && e[7].name == n[7];
    assert e[8].name == n[8] && e[9].name == n[9] && e[10].name == n[10];
    MapNames(e, n);
  }

  lemma FashionNames()
    ensures Map(fashionCategories, NameOf) == DeclaredNames[11..]
  {
    var n := DeclaredNames[11..];
    assert fashionCategories[0].name == n[0] && fashionCategories[1].name == n[1];
    assert fashionCategories[2].name == n[2];
    MapNames(fashionCategories, n);
  }

  /** The names, in declaration order: eleven electronics categories, then three fashion ones. */
  lemma AllCategoryNamesListed()
    ensures |electronicsCategories| == 11 && |fashionCategories| == 3
    ensures AllCategoryNames() == DeclaredNames
  {
    ElectronicsNames();
    FashionNames();
    assert DeclaredNames[..11] + DeclaredNames[11..] == DeclaredNames;
  }

  const NormalisedNames: seq<string> := ["smartwatch", "drone", "gameconsole",
    "smartphone", "smarttv", "headphone", "camera", "router", "laptop", "vr", "tws",
    "sneakers", "handbags", "skincare"]

  lemma DeclaredNamesDistinct()
    ensures PairwiseDistinct(DeclaredNames)
  {
  }

  lemma NormalisedNamesAreDistinct()
    ensures PairwiseDistinct(NormalisedNames)
  {
  }

  lemma AllCategoryNamesDistinct()
    ensures |AllCategoryNames()| == 14
    ensures PairwiseDistinct(AllCategoryNames())
  {
    AllCategoryNamesListed();
    DeclaredNamesDistinct();
  }

  lemma OneWordKey(w: string, key: string)
    requires Lower(w) == key
    requires forall i :: 0 <= i < |key| ==> !IsSpace(key[i])
    ensures Normalise(w) == key
  {
    NoSpaceStripped(key);
  }

  lemma TwoWordKey(a: string, b: string, key: string)
    requires Lower(a) + Lower(b) == key
    requires forall i :: 0 <= i < |a| ==> !IsSpace(a[i])
    requires forall i :: 0 <= i < |b| ==> !IsSpace(b[i])
    ensures Normalise(a + " " + b) == key
  {
    NormaliseTwoWords(a, b);
  }

  lemma KeySmartWatch()
    ensures Normalise(DeclaredNames[0]) == NormalisedNames[0]
  {
    assert DeclaredNames[0] == "Smart Watch";
    assert "Smart Watch" == "Smart" + " " + "Watch";
    assert Lower("Smart") == "smart" && Lower("Watch") == "watch";
    TwoWordKey("Smart", "Watch", "smartwatch");
  }

  lemma KeyGameConsole()
    ensures Normalise(DeclaredNames[2]) == NormalisedNames[2]
  {
    assert DeclaredNames[2] == "Game Console";
    assert "Game Console" == "Game" + " " + "Console";
    assert Lower("Game") == "game" && Lower("Console") == "console";
    TwoWordKey("Game", "Console", "gameconsole");
  }

  lemma KeySmartPhone()
    ensures Normalise(DeclaredNames[3]) == NormalisedNames[3]
  {
    assert DeclaredNames[3] == "Smart Phone";
    assert "Smart Phone" == "Smart" + " " + "Phone";
    assert Lower("Smart") == "smart" && Lower("Phone") == "phone";
    TwoWordKey("Smart", "Phone", "smartphone");
  }

  lemma KeySmartTV()
    ensures Normalise(DeclaredNames[4]) == NormalisedNames[4]
  {
    assert DeclaredNames[4] == "Smart TV";
    assert "Smart TV" == "Smart" + " " + "TV";
    assert Lower("Smart") == "smart" && Lower("TV") == "tv";
    TwoWordKey("Smart", "TV", "smarttv");
  }

  lemma KeyDrone()
    ensures Normalise(DeclaredNames[1]) == NormalisedNames[1]
  {
    assert DeclaredNames[1] == "Drone";
    OneWordKey("Drone", "drone");
  }

  lemma KeyHeadphone()
    ensures Normalise(DeclaredNames[5]) == NormalisedNames[5]
  {
    assert DeclaredNames[5] == "Headphone";
    OneWordKey("Headphone", "headphone");
  }

  lemma KeyCamera()
    ensures Normalise(DeclaredNames[6]) == NormalisedNames[6]
  {
    assert DeclaredNames[6] == "Camera";
    OneWordKey("Camera", "camera");
  }

  lemma KeyRouter()
    ensures Normalise(DeclaredNames[7]) == NormalisedNames[7]
  {
    assert DeclaredNames[7] == "Router";
    OneWordKey("Router", "router");
  }

  lemma KeyLaptop()
    ensures Normalise(DeclaredNames[8]) == NormalisedNames[8]
  {
    assert DeclaredNames[8] == "Laptop";
    OneWordKey("Laptop", "laptop");
  }

  lemma KeyVR()
    ensures Normalise(DeclaredNames[9]) == NormalisedNames[9]
  {
    assert DeclaredNames[9] == "VR";
    OneWordKey("VR", "vr");
  }

  lemma KeyTWS()
    ensures Normalise(DeclaredNames[10]) == NormalisedNames[10]
  {
    assert DeclaredNames[10] == "TWS";
    OneWordKey("TWS", "tws");
  }

  lemma KeySneakers()
    ensures Normalise(DeclaredNames[11]) == NormalisedNames[11]
  {
    assert DeclaredNames[11] == "Sneakers";
    OneWordKey("Sneakers", "sneakers");
  }

  lemma KeyHandbags()
    ensures Normalise(DeclaredNames[12]) == NormalisedNames[12]
  {
    assert DeclaredNames[12] == "Handbags";
    OneWordKey("Handbags", "handbags");
  }

  lemma KeySkincare()
    ensures Normalise(DeclaredNames[13]) == NormalisedNames[13]
  {
    assert DeclaredNames[13] == "Skincare";
    OneWordKey("Skincare", "skincare");
  }

  lemma NormalisedKeysLow()
    ensures forall k :: 0 <= k < 4 ==> Normalise(DeclaredNames[k]) == NormalisedNames[k]
  {
    forall k | 0 <= k < 4
      ensures Normalise(DeclaredNames[k]) == NormalisedNames[k]
    {
      if k == 0 {
        KeySmartWatch();
      } else if k == 1 {
        KeyDrone();
      } else if k == 2 {
        KeyGameConsole();
      } else {
        KeySmartPhone();
      }
    }
  }

  lemma NormalisedKeysMid()
    ensures forall k :: 4 <= k < 9 ==> Normalise(DeclaredNames[k]) == NormalisedNames[k]
  {
    forall k | 4 <= k < 9
      ensures Normalise(DeclaredNames[k]) == NormalisedNames[k]
    {
      if k == 4 {
        KeySmartTV();
      } else if k == 5 {
        KeyHeadphone();
      } else if k == 6 {
        KeyCamera();
      } else if k == 7 {
        KeyRouter();
      } else {
        KeyLaptop();
      }
    }
  }

  lemma NormalisedKeysHigh()
    ensures forall k :: 9 <= k < 14 ==> Normalise(DeclaredNames[k]) == NormalisedNames[k]
  {
    forall k | 9 <= k < 14
      ensures Normalise(DeclaredNames[k]) == NormalisedNames[k]
    {
      if k == 9 {
        KeyVR();
      } else if k == 10 {
        KeyTWS();
      } else if k == 11 {
        KeySneakers();
      } else if k == 12 {
        KeyHandbags();
      } else {
        KeySkincare();
      }
    }
  }

  /** The keys the sidebar compares (lowercase, whitespace removed). */
  lemma NormalisedCategoryNames()
    ensures |AllCategoryNames()| == |NormalisedNames|
    ensures forall k :: 0 <= k < |NormalisedNames| ==> Normalise(AllCategoryNames()[k]) == NormalisedNames[k]
  {
    AllCategoryNamesListed();
    NormalisedKeysLow();
    NormalisedKeysMid();
    NormalisedKeysHigh();
  }

  /** No two category names share a normalised key, so the sidebar's
      `allCategoryNames.find(...)` has at most one candidate. */
  lemma NormalisedNamesDistinct()
    ensures forall i, j :: 0 <= i < j < |AllCategoryNames()| ==>
      Normalise(AllCategoryNames()[i]) != Normalise(AllCategoryNames()[j])
  {
    NormalisedCategoryNames();
    NormalisedNamesAreDistinct();
  }
}
