/** The static dictionary of Vietnamese display labels for metadata field names,
    and the lookup `vietnameseLabels[k] || k` that falls back to the raw key. */
module Labels {

  const LabelTable: map<string, string> := map[
    "name" := "Tên",
    "appearance" := "Ngoại hình",
    "fragrance" := "Hương thơm",
    "growthCycle" := "Chu kỳ sinh trưởng",
    "habitatAndDistribution" := "Môi trường và phân bố",
    "symbolismAndUses" := "Biểu tượng và công dụng",
    "biologicalCharacteristics" := "Đặc điểm sinh học",
    "sampleImageUrl" := "Ảnh mẫu",
    "commonName" := "Tên thường gọi",
    "scientificName" := "Tên khoa học",
    "localName" := "Tên địa phương",
    "size" := "Kích thước",
    "petal" := "Cánh hoa",
    "stamen" := "Nhụy hoa",
    "leaf" := "Lá",
    "stem" := "Thân",
    "level" := "Mức độ",
    "type" := "Loại",
    "bloomingSeason" := "Mùa nở hoa",
    "bloomDuration" := "Thời gian nở hoa",
    "lifespan" := "Tuổi thọ",
    "origin" := "Nguồn gốc",
    "preferredEnvironment" := "Môi trường ưa thích",
    "adaptability" := "Khả năng thích nghi",
    "culturalSymbolism" := "Biểu tượng văn hóa",
    "uses" := "Công dụng",
    "pollination" := "Thụ phấn",
    "hybridizationAbility" := "Khả năng lai tạo",
    "shape" := "Hình dạng",
    "count" := "Số lượng",
    "color" := "Màu sắc",
    "texture" := "Đặc tính",
    "features" := "Đặc điểm"
  ]

  /** The display label of field `k`: its dictionary entry when that entry is a
      non-empty string (JavaScript's `||` skips an empty one), otherwise `k` itself. */
  function Label(k: string): (r: string)
    ensures k in LabelTable ==> r == LabelTable[k]
    ensures k !in LabelTable ==> r == k
    ensures r == "" <==> k == ""
  {
    if k in LabelTable && LabelTable[k] != "" then LabelTable[k] else k
  }

  /** Every field name starts with a lower-case Latin letter. */
  predicate StartsLower(s: string) {
    |s| > 0 && 'a' <= s[0] <= 'z'
  }

  /** Keys are lower camel case; labels are capitalised Vietnamese phrases. */
  lemma KeysAndLabelsDiffer(k: string)
    requires k in LabelTable
    ensures StartsLower(k) && !StartsLower(LabelTable[k])
  {
  }

  /** No label in the dictionary is itself a dictionary key, so labelling a label
      changes nothing. */
  lemma LabelIdempotent(k: string)
    ensures Label(Label(k)) == Label(k)
  {
    if k in LabelTable {
      KeysAndLabelsDiffer(k);
      if LabelTable[k] in LabelTable {
        KeysAndLabelsDiffer(LabelTable[k]);
      }
    }
  }
}
